/** The port lists of per-client forwarding: a forgiving parser, a canonical printer, and how they undo each other. */
module Portfwd {
  import opened Prelude
  import opened Text

  datatype PortSpec = PortSpec(start: int, end: int)
  {
    predicate IsRange() { end > start }

    predicate Valid() { 1 <= start <= end <= 65535 }
  }

  function ParsePort(s: string): Option<int> {
    match ParseInt(s)
    case None => None
    case Some(n) => if n < 1 || n > 65535 then None else Some(n)
  }

  /** The position of the first '-'; the length when there is none. */
  function DashAt(tok: string): (i: nat)
    ensures i <= |tok| && (i < |tok| ==> tok[i] == '-')
  {
    if tok == "" || tok[0] == '-' then 0
    else
      DashAt(tok[1..]) + 1
  }

  function ParseToken(tok: string): (r: Option<PortSpec>)
    ensures r.Some? ==> r.value.Valid()
  {
    var i := DashAt(tok);
    if i < |tok| then
      match (ParsePort(TrimSpace(tok[..i])), ParsePort(TrimSpace(tok[i + 1..])))
      case (Some(start), Some(end)) => if start > end then None else Some(PortSpec(start, end))
      case _ => None
    else
      match ParsePort(tok)
      case None => None
      case Some(p) => Some(PortSpec(p, p))
  }

  function ReadToken(raw: string): Option<PortSpec> {
    var tok := TrimSpace(raw);
    if tok == "" then None else ParseToken(tok)
  }

  function Extend(specs: seq<PortSpec>, raw: string): seq<PortSpec> {
    match ReadToken(raw)
    case None => specs
    case Some(spec) => if spec in specs then specs else specs + [spec]
  }

  /** The specs of the tokens in order, each kept at its first appearance. */
  function Specs(tokens: seq<string>): (specs: seq<PortSpec>)
    ensures forall s :: s in specs ==> s.Valid()
    ensures NoDuplicates(specs)
  {
    if tokens == [] then [] else Extend(Specs(tokens[..|tokens| - 1]), tokens[|tokens| - 1])
  }

  function Parsed(input: string): seq<PortSpec> {
    Specs(Split(ReplaceChar(input, ';', ','), ','))
  }

  /** The key the source keeps its `seen` map under. */
  function Key(s: PortSpec): string
    requires s.Valid()
  {
    Itoa(s.start) + "-" + Itoa(s.end)
  }

  lemma {:induction false} DashSplitsAt(a: string, b: string)
    requires '-' !in a
    ensures DashAt(a + "-" + b) == |a|
    ensures DashAt(a) == |a|
  {
    if a != "" {
      assert (a + "-" + b)[1..] == a[1..] + "-" + b;
      DashSplitsAt(a[1..], b);
    }
  }

  lemma NoDashInItoa(n: nat)
    ensures '-' !in Itoa(n) && ',' !in Itoa(n) && ';' !in Itoa(n) && NoSpaces(Itoa(n))
  {
    ItoaDigits(n);
  }

  lemma KeyParts(s: PortSpec)
    requires s.Valid()
    ensures var i := DashAt(Key(s)); i < |Key(s)| && Key(s)[..i] == Itoa(s.start) && Key(s)[i + 1..] == Itoa(s.end)
  {
    NoDashInItoa(s.start);
    DashSplitsAt(Itoa(s.start), Itoa(s.end));
  }

  lemma KeyIsInjective(s: PortSpec, t: PortSpec)
    requires s.Valid() && t.Valid() && Key(s) == Key(t)
    ensures s == t
  {
    KeyParts(s);
    KeyParts(t);
    ItoaDigits(s.start);
    ItoaDigits(t.start);
    ItoaDigits(s.end);
    ItoaDigits(t.end);
  }

  function Keys(specs: seq<PortSpec>): set<string>
    requires forall s :: s in specs ==> s.Valid()
  {
    set s | s in specs :: Key(s)
  }

  lemma KeyDecides(specs: seq<PortSpec>, spec: PortSpec)
    requires spec.Valid() && forall s :: s in specs ==> s.Valid()
    ensures Key(spec) in Keys(specs) <==> spec in specs
    ensures Keys(specs + [spec]) == Keys(specs) + {Key(spec)}
  {
    if Key(spec) in Keys(specs) {
      var s :| s in specs && Key(s) == Key(spec);
      KeyIsInjective(s, spec);
    }
  }

  method Parse(input: string) returns (specs: seq<PortSpec>)
    ensures specs == Parsed(input)
  {
    if input == "" {
      assert Specs([""]) == [] by { assert [""][..0] == []; }
      return [];
    }
    var tokens := Split(ReplaceChar(input, ';', ','), ',');
    specs := [];
    var seen: set<string> := {};
    for i := 0 to |tokens|
      invariant specs == Specs(tokens[..i])
      invariant seen == Keys(specs)
    {
      assert tokens[..i + 1][..i] == tokens[..i];
      var tok := TrimSpace(tokens[i]);
      if tok == "" {
        continue;
      }
      var spec := ParseToken(tok);
      if spec.None? {
        continue;
      }
      KeyDecides(specs, spec.value);
      var key := Key(spec.value);
      if key in seen {
        continue;
      }
      seen := seen + {key};
      specs := specs + [spec.value];
    }
    assert tokens[..|tokens|] == tokens;
  }

  function Print(s: PortSpec): string
    requires s.Valid()
  {
    if s.IsRange() then Itoa(s.start) + "-" + Itoa(s.end) else Itoa(s.start)
  }

  function PrintAll(specs: seq<PortSpec>): (parts: seq<string>)
    requires forall s :: s in specs ==> s.Valid()
    ensures |parts| == |specs| && forall i :: 0 <= i < |specs| ==> parts[i] == Print(specs[i])
  {
    seq(|specs|, i requires 0 <= i < |specs| => Print(specs[i]))
  }

  function Normalized(input: string): string {
    Join(PrintAll(Parsed(input)), ',')
  }

  method PrintEach(specs: seq<PortSpec>) returns (parts: seq<string>)
    requires forall s :: s in specs ==> s.Valid()
    ensures parts == PrintAll(specs)
  {
    parts := [];
    for i := 0 to |specs|
      invariant |parts| == i && forall j :: 0 <= j < i ==> parts[j] == Print(specs[j])
    {
      parts := parts + [Print(specs[i])];
    }
  }

  method Normalize(input: string) returns (r: string)
    ensures r == Normalized(input)
  {
    var specs := Parse(input);
    if |specs| == 0 {
      return "";
    }
    var parts := PrintEach(specs);
    return Join(parts, ',');
  }

  // ---- the parser undoes the printer ----

  lemma ReadSingle(n: nat)
    requires 1 <= n <= 65535
    ensures ReadToken(Itoa(n)) == Some(PortSpec(n, n))
  {
    NoDashInItoa(n);
    DashSplitsAt(Itoa(n), "");
    ParseItoa(n);
    ItoaDigits(n);
    TrimNothing(Itoa(n));
  }

  lemma ReadRange(a: nat, b: nat)
    requires 1 <= a <= b <= 65535
    ensures ReadToken(Itoa(a) + "-" + Itoa(b)) == Some(PortSpec(a, b))
  {
    var p := Itoa(a) + "-" + Itoa(b);
    NoDashInItoa(a);
    NoDashInItoa(b);
    DashSplitsAt(Itoa(a), Itoa(b));
    ParseItoa(a);
    ParseItoa(b);
    TrimNothing(Itoa(a));
    TrimNothing(Itoa(b));
    TrimNothing(p);
    assert p[..|Itoa(a)|] == Itoa(a) && p[|Itoa(a)| + 1..] == Itoa(b);
  }

  lemma ReadPrinted(s: PortSpec)
    requires s.Valid()
    ensures ReadToken(Print(s)) == Some(s)
    ensures ',' !in Print(s) && ';' !in Print(s)
  {
    NoDashInItoa(s.start);
    NoDashInItoa(s.end);
    if s.IsRange() {
      ReadRange(s.start, s.end);
    } else {
      ReadSingle(s.start);
    }
  }

  lemma LastIsNew<T>(s: seq<T>)
    requires s != [] && NoDuplicates(s)
    ensures NoDuplicates(s[..|s| - 1]) && s[|s| - 1] !in s[..|s| - 1]
    ensures s == s[..|s| - 1] + [s[|s| - 1]]
  {
  }

  lemma ExtendByNew(specs: seq<PortSpec>, raw: string, spec: PortSpec)
    requires ReadToken(raw) == Some(spec) && spec !in specs
    ensures Extend(specs, raw) == specs + [spec]
  {
  }

  /** Each token reads as the spec at its place. */
  ghost predicate Readable(parts: seq<string>, specs: seq<PortSpec>) {
    |parts| == |specs| && forall i :: 0 <= i < |specs| ==> ReadToken(parts[i]) == Some(specs[i])
  }

  lemma ReadableInit(parts: seq<string>, specs: seq<PortSpec>)
    requires Readable(parts, specs) && specs != []
    ensures Readable(parts[..|specs| - 1], specs[..|specs| - 1])
    ensures ReadToken(parts[|specs| - 1]) == Some(specs[|specs| - 1])
  {
  }

  lemma {:induction false} SpecsOfReadable(parts: seq<string>, specs: seq<PortSpec>)
    requires NoDuplicates(specs) && Readable(parts, specs)
    ensures Specs(parts) == specs
  {
    if specs != [] {
      var n := |specs| - 1;
      ReadableInit(parts, specs);
      LastIsNew(specs);
      SpecsOfReadable(parts[..n], specs[..n]);
      ExtendByNew(specs[..n], parts[n], specs[n]);
    }
  }

  lemma {:induction false} NoSemicolon(parts: seq<string>)
    requires forall p :: p in parts ==> ';' !in p
    ensures ';' !in Join(parts, ',')
  {
    if |parts| > 1 { NoSemicolon(parts[1..]); }
  }

  /** Parsing the normal form of any input gives what parsing the input gives. */
  lemma ParseOfNormalized(input: string)
    ensures Parsed(Normalized(input)) == Parsed(input)
  {
    var specs := Parsed(input);
    var parts := PrintAll(specs);
    forall i | 0 <= i < |specs|
      ensures ReadToken(parts[i]) == Some(specs[i]) && ',' !in parts[i] && ';' !in parts[i]
    {
      ReadPrinted(specs[i]);
    }
    NoSemicolon(parts);
    var printed := Join(parts, ',');
    assert ReplaceChar(printed, ';', ',') == printed;
    if specs == [] {
      assert Split(printed, ',') == [""] && [""][..0] == [];
    } else {
      SplitJoin(parts, ',');
      SpecsOfReadable(parts, specs);
    }
  }

  lemma NormalizeIsIdempotent(input: string)
    ensures Normalized(Normalized(input)) == Normalized(input)
  {
    ParseOfNormalized(input);
  }

  /** Two inputs have one normal form exactly when they parse to one list. */
  lemma NormalFormsClassify(a: string, b: string)
    ensures Normalized(a) == Normalized(b) <==> Parsed(a) == Parsed(b)
  {
    ParseOfNormalized(a);
    ParseOfNormalized(b);
  }
}
