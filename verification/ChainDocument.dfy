/**
 The wire types of the proxy chain: the document a hop polls from its next hop.
 A secret hash is the SHA-256 of a secret, taken as injective: equal hashes have equal secrets.
 */
module ChainDocument {
  const DOCUMENT_VERSION := 1
  const ROLE_INNER := "inner"
  const ROLE_EDGE := "edge"
  const STATE_DRAINING := "draining"
  const NETWORK_TCP := "tcp"
  const NETWORK_UDP := "udp"
  const NETWORK_TCP_UDP := "tcp,udp"

  datatype SecretHash = NoHash | Sha256(secret: string)

  datatype Self = Self(name: string, role: string, host: string, state: string,
                       realityTarget: string, realityServerName: string)
  {
    predicate Draining() { state == STATE_DRAINING }
  }

  datatype NextHop = NextHop(host: string, subPort: int, subScheme: string,
                             subPath: string, jsonPath: string, tunPath: string)

  datatype Hop = Hop(name: string, role: string, host: string, subPort: int, secretHash: SecretHash,
                     state: string, realityTarget: string, realityServerName: string)

  datatype Port = Port(port: int, network: string, tag: string, source: string)

  datatype Document = Document(version: int, revision: int, generatedAt: int, self: Self, nextHop: NextHop,
                               activeEdge: string, hops: seq<Hop>, ports: seq<Port>)

  /** The part of proxy.json the wave reads: what this box calls itself and how its sub port is reached. */
  datatype Config = Config(domain: string, subPort: int, tls: bool)
  {
    function Scheme(): string { if tls then "https" else "http" }
  }

  predicate UniqueNames(hops: seq<Hop>) {
    forall i, j :: 0 <= i < j < |hops| ==> hops[i].name != hops[j].name
  }

  /** No two listed hops hold the same secret. */
  predicate UniqueSecrets(hops: seq<Hop>) {
    forall i, j :: 0 <= i < j < |hops| && hops[i].secretHash.Sha256? ==> hops[i].secretHash != hops[j].secretHash
  }
}
