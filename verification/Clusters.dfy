/** Which clusters exist, read from configuration, and which server a tool call goes to. */
module Clusters {
  import opened Sorting
  import opened Text
  import Scope

  // ---- The list parsers ----

  datatype Entry = Entry(name: string, target: string)

  datatype ListError =
    NotAPair(part: string) | BadName(name: string) | BadTarget(name: string) | Duplicate(name: string)

  datatype Result<T, E> = Ok(value: T) | Err(error: E)

  type Entries = Result<seq<Entry>, ListError>

  predicate IsNameStart(c: char) { 'a' <= c <= 'z' || IsDigit(c) }

  predicate IsName(s: string) {
    s != "" && IsNameStart(s[0]) && forall k | 1 <= k < |s| :: IsNameStart(s[k]) || s[k] == '-'
  }

  /** A queue reached through a bridge: its name ends in `.fifo`. */
  predicate IsQueue(target: string) { |target| >= 5 && target[|target| - 5..] == ".fifo" }

  predicate AfterScheme(target: string, scheme: string) {
    |target| > |scheme| && target[..|scheme|] == scheme && !IsSpace(target[|scheme|]) && target[|scheme|] != '/'
  }

  /** A server reached over the network: a scheme and a host. */
  predicate IsUrl(target: string) { AfterScheme(target, "http://") || AfterScheme(target, "https://") }

  function TrimmedParts(parts: seq<string>): seq<string> {
    if parts == [] then []
    else (if AllSpace(parts[0]) then [] else [Trim(parts[0])]) + TrimmedParts(parts[1..])
  }

  /** What one part adds to the entries read before it. */
  function ReadPart(part: string, accepts: string -> bool, out: seq<Entry>): Result<Entry, ListError> {
    var eq := Find('=', part);
    if eq == 0 || eq == |part| then Err(NotAPair(part))
    else
      var name, target := Trim(part[..eq]), Trim(part[eq + 1..]);
      if !IsName(name) then Err(BadName(name))
      else if !accepts(target) then Err(BadTarget(name))
      else if exists e :: e in out && e.name == name then Err(Duplicate(name))
      else Ok(Entry(name, target))
  }

  function ReadParts(parts: seq<string>, accepts: string -> bool, out: seq<Entry>): Entries
    decreases |parts|
  {
    if parts == [] then Ok(out)
    else
      var e := ReadPart(parts[0], accepts, out);
      if e.Err? then Err(e.error) else ReadParts(parts[1..], accepts, out + [e.value])
  }

  function Parsed(raw: string, accepts: string -> bool): Entries {
    ReadParts(TrimmedParts(Split(raw, ',')), accepts, [])
  }

  /** Both lists are read alike, except for what they accept as a target. An unset list is "". */
  method ParseClusters(raw: string, accepts: string -> bool) returns (r: Entries)
    ensures r == Parsed(raw, accepts)
  {
    hide TrimmedParts, Split, IsName, IsSpace;
    var parts := TrimmedParts(Split(raw, ','));
    var out: seq<Entry> := [];
    for i := 0 to |parts|
      invariant ReadParts(parts[i..], accepts, out) == Parsed(raw, accepts)
    {
      assert parts[i..][1..] == parts[i + 1..];
      var part := parts[i];
      var eq := Find('=', part);
      if eq == 0 || eq == |part| {
        return Err(NotAPair(part));
      }
      var name, target := Trim(part[..eq]), Trim(part[eq + 1..]);
      if !IsName(name) {
        return Err(BadName(name));
      }
      if !accepts(target) {
        return Err(BadTarget(name));
      }
      if exists e :: e in out && e.name == name {
        return Err(Duplicate(name));
      }
      out := out + [Entry(name, target)];
    }
    r := Ok(out);
  }

  // ---- What a list can hold ----

  predicate IsTrimmed(s: string) { s == "" || (!IsSpace(s[0]) && !IsSpace(s[|s| - 1])) }

  predicate DistinctNames(es: seq<Entry>) { forall i, j | 0 <= i < j < |es| :: es[i].name != es[j].name }

  predicate IsListable(e: Entry, accepts: string -> bool) {
    IsName(e.name) && accepts(e.target) && ',' !in e.target && IsTrimmed(e.target)
  }

  predicate IsValidList(es: seq<Entry>, accepts: string -> bool) {
    DistinctNames(es) && forall e | e in es :: IsListable(e, accepts)
  }

  function PrintEntry(e: Entry): string { e.name + "=" + e.target }

  function PrintAll(es: seq<Entry>): seq<string> {
    if es == [] then [] else [PrintEntry(es[0])] + PrintAll(es[1..])
  }

  function Print(es: seq<Entry>): string { if es == [] then "" else Join(PrintAll(es), ',') }

  lemma NameIsPlain(name: string)
    requires IsName(name)
    ensures IsTrimmed(name) && '=' !in name && ',' !in name && '"' !in name && '\\' !in name
  {
  }

  lemma TrimOfTrimmed(s: string)
    requires IsTrimmed(s)
    ensures Trim(s) == s
  {
    hide IsSpace;
    if s != "" {
      SpanUnique(IsSpace, s, 0);
      assert s[0..] == s;
    } else {
      assert TrimStart(s) == "";
    }
  }

  lemma TrimIsTrimmed(s: string)
    ensures IsTrimmed(Trim(s)) && forall c | c in Trim(s) :: c in s
  {
    hide IsSpace;
    var t := TrimStart(s);
    var m := TrimEnd(t);
    assert m != "" ==> m[0] == t[0];
    assert forall c | c in m :: c in t;
    assert forall c | c in t :: c in s;
  }

  lemma PairParts(name: string, target: string)
    requires '=' !in name
    ensures var p := name + "=" + target;
            Find('=', p) == |name| && p[..|name|] == name && p[|name| + 1..] == target
  {
    var p := name + "=" + target;
    assert p[..|name|] == name;
    FindUnique('=', p, |name|);
  }

  lemma EntryIsRead(e: Entry, accepts: string -> bool, out: seq<Entry>)
    requires IsListable(e, accepts) && forall f | f in out :: f.name != e.name
    ensures ReadPart(PrintEntry(e), accepts, out) == Ok(e)
  {
    hide IsName, IsSpace, IsTrimmed, Trim;
    NameIsPlain(e.name);
    NameIsThere(e.name);
    PairParts(e.name, e.target);
    TrimOfTrimmed(e.name);
    TrimOfTrimmed(e.target);
  }

  lemma NameIsThere(name: string)
    requires IsName(name)
    ensures name != ""
  {
  }

  lemma EntryIsAPart(e: Entry, accepts: string -> bool)
    requires IsListable(e, accepts)
    ensures var p := PrintEntry(e); ',' !in p && !AllSpace(p) && Trim(p) == p
  {
    hide IsSpace, Trim, IsName;
    NameIsPlain(e.name);
    NameIsThere(e.name);
    var p := PrintEntry(e);
    assert p[0] == e.name[0];
    EqualsIsNoSpace();
    assert e.target == "" ==> p[|p| - 1] == '=';
    assert e.target != "" ==> p[|p| - 1] == e.target[|e.target| - 1];
    TrimOfTrimmed(p);
  }

  lemma EqualsIsNoSpace()
    ensures !IsSpace('=')
  {
  }

  lemma {:induction false} PrintedParts(es: seq<Entry>, accepts: string -> bool)
    requires forall e | e in es :: IsListable(e, accepts)
    ensures TrimmedParts(PrintAll(es)) == PrintAll(es) && forall p | p in PrintAll(es) :: ',' !in p
  {
    hide AllSpace, Trim, PrintEntry, IsListable;
    if es != [] {
      assert es[0] in es;
      EntryIsAPart(es[0], accepts);
      PrintedParts(es[1..], accepts);
      assert PrintAll(es)[1..] == PrintAll(es[1..]);
    }
  }

  lemma {:induction false} PrintedAreRead(es: seq<Entry>, accepts: string -> bool, out: seq<Entry>)
    requires IsValidList(out + es, accepts)
    ensures ReadParts(PrintAll(es), accepts, out) == Ok(out + es)
    decreases |es|
  {
    hide ReadPart, PrintEntry, IsListable, IsValidList;
    if es == [] {
      assert out + es == out;
    } else {
      ValidHead(out, es, accepts);
      EntryIsRead(es[0], accepts, out);
      assert PrintAll(es)[1..] == PrintAll(es[1..]);
      assert out + [es[0]] + es[1..] == out + es;
      PrintedAreRead(es[1..], accepts, out + [es[0]]);
    }
  }

  lemma ValidHead(out: seq<Entry>, es: seq<Entry>, accepts: string -> bool)
    requires IsValidList(out + es, accepts) && es != []
    ensures IsListable(es[0], accepts) && forall f | f in out :: f.name != es[0].name
  {
    hide IsListable;
    var all := out + es;
    assert all[|out|] == es[0];
    forall f | f in out
      ensures f.name != es[0].name
    {
      var i :| 0 <= i < |out| && out[i] == f;
      assert all[i] == f;
    }
  }

  /** A printed valid list is read back as it was. */
  lemma PrintedListIsRead(es: seq<Entry>, accepts: string -> bool)
    requires IsValidList(es, accepts)
    ensures Parsed(Print(es), accepts) == Ok(es)
  {
    hide ReadParts, TrimmedParts, IsListable, Join, Split;
    PrintedParts(es, accepts);
    assert [] + es == es;
    PrintedAreRead(es, accepts, []);
    if es == [] {
      NothingToRead();
    } else {
      PrintAllSome(es);
      SplitOfJoin(PrintAll(es), ',');
    }
  }

  lemma NothingToRead()
    ensures Split("", ',') == [""] && TrimmedParts([""]) == []
  {
    assert AllSpace("");
    assert [""][1..] == [];
  }

  lemma PrintAllSome(es: seq<Entry>)
    requires es != []
    ensures PrintAll(es) != []
  {
  }

  lemma {:induction false} SplitHasNoSep(s: string, sep: char)
    ensures forall p | p in Split(s, sep) :: sep !in p
  {
    if s != "" {
      var rest := Split(s[1..], sep);
      SplitHasNoSep(s[1..], sep);
      assert sep !in rest[0];
      forall p | p in Split(s, sep)
        ensures sep !in p
      {
        assert p == "" || p == [s[0]] + rest[0] || p in rest;
      }
    }
  }

  lemma {:induction false} PartsHaveNoComma(parts: seq<string>)
    requires forall p | p in parts :: ',' !in p
    ensures forall p | p in TrimmedParts(parts) :: ',' !in p
  {
    hide Trim, AllSpace;
    if parts != [] {
      assert parts[0] in parts;
      TrimIsTrimmed(parts[0]);
      PartsHaveNoComma(parts[1..]);
    }
  }

  lemma ReadIsListable(part: string, accepts: string -> bool, out: seq<Entry>)
    requires ',' !in part
    ensures var e := ReadPart(part, accepts, out);
            e.Ok? ==> IsListable(e.value, accepts) && forall f | f in out :: f.name != e.value.name
  {
    hide IsSpace, Trim, IsName;
    var eq := Find('=', part);
    if eq < |part| {
      TrimIsTrimmed(part[eq + 1..]);
      assert forall c | c in part[eq + 1..] :: c in part;
    }
  }

  lemma {:induction false} ReadPartsAreValid(parts: seq<string>, accepts: string -> bool, out: seq<Entry>)
    requires IsValidList(out, accepts) && forall p | p in parts :: ',' !in p
    ensures var r := ReadParts(parts, accepts, out); r.Ok? ==> IsValidList(r.value, accepts)
    decreases |parts|
  {
    hide ReadPart, IsListable;
    if parts != [] {
      assert parts[0] in parts;
      ReadIsListable(parts[0], accepts, out);
      var e := ReadPart(parts[0], accepts, out);
      if e.Ok? {
        assert IsValidList(out + [e.value], accepts);
        ReadPartsAreValid(parts[1..], accepts, out + [e.value]);
      }
    }
  }

  /** Whatever the text, an accepted list is valid: its names are good, and no two are the same. */
  lemma AcceptedListIsValid(raw: string, accepts: string -> bool)
    ensures var r := Parsed(raw, accepts); r.Ok? ==> IsValidList(r.value, accepts)
  {
    hide ReadParts, TrimmedParts, Split, IsListable;
    SplitHasNoSep(raw, ',');
    PartsHaveNoComma(Split(raw, ','));
    ReadPartsAreValid(TrimmedParts(Split(raw, ',')), accepts, []);
  }

  // ---- Which lists are accepted ----

  /** The text of an entry, with white space where the parsers allow some. */
  ghost predicate Spells(part: string, e: Entry) {
    exists a, b, c, d :: AreSpaces(a, b, c, d) && part == a + (e.name + (b + ("=" + (c + (e.target + d)))))
  }

  predicate AreSpaces(a: string, b: string, c: string, d: string) {
    AllSpace(a) && AllSpace(b) && AllSpace(c) && AllSpace(d)
  }

  function NonBlank(parts: seq<string>): seq<string> {
    if parts == [] then [] else (if AllSpace(parts[0]) then [] else [parts[0]]) + NonBlank(parts[1..])
  }

  ghost predicate SpellAll(parts: seq<string>, es: seq<Entry>) {
    |parts| == |es| && forall i | 0 <= i < |parts| :: Spells(parts[i], es[i])
  }

  lemma {:induction false} SpacesEnd(s: string, b: string)
    requires AllSpace(b) && (s == "" || !IsSpace(s[|s| - 1]))
    ensures TrimEnd(s + b) == s
    decreases |b|
  {
    hide IsSpace;
    if b == "" {
      assert s + b == s;
    } else {
      assert (s + b)[..|s + b| - 1] == s + b[..|b| - 1];
      SpacesEnd(s, b[..|b| - 1]);
    }
  }

  lemma TrimSpaces(a: string, s: string, b: string)
    requires AllSpace(a) && AllSpace(b) && IsTrimmed(s)
    ensures Trim(a + (s + b)) == s
  {
    hide IsSpace, TrimEnd;
    TrimStartSkips(a, s + b);
    if s == "" {
      assert s + b == b;
      SpanUnique(IsSpace, b, |b|);
      SpacesEnd("", "");
    } else {
      SpanUnique(IsSpace, s + b, 0);
      assert (s + b)[0..] == s + b;
      SpacesEnd(s, b);
    }
  }

  lemma TrimParts(s: string) returns (a: string, b: string)
    ensures AllSpace(a) && AllSpace(b) && s == a + (Trim(s) + b)
  {
    hide IsSpace;
    var t := TrimStart(s);
    a, b := s[..|s| - |t|], t[|Trim(s)|..];
  }

  /** What is left of a part once it is trimmed: the white space at its ends may be the target's. */
  lemma TrimmedSpelling(a: string, name: string, b: string, c: string, target: string, d: string)
    requires AreSpaces(a, b, c, d) && IsName(name) && IsTrimmed(target)
    ensures var tail := if target == "" then "" else c + target;
            Trim(a + (name + (b + ("=" + (c + (target + d)))))) == name + (b + ("=" + tail)) && Trim(tail) == target
  {
    hide IsName, IsSpace, Trim;
    NameIsPlain(name);
    NameIsThere(name);
    EqualsIsNoSpace();
    var tail := if target == "" then "" else c + target;
    var end := if target == "" then c + d else d;
    var core := name + (b + ("=" + tail));
    assert core[0] == name[0];
    assert core[|core| - 1] == (if target == "" then '=' else target[|target| - 1]);
    TrimSpaces(a, core, end);
    assert name + (b + ("=" + (c + (target + d)))) == core + end;
    TrimSpaces(if target == "" then "" else c, target, "");
    assert tail == (if target == "" then "" else c) + (target + "");
  }

  lemma SpellingIsRead(part: string, e: Entry, accepts: string -> bool, out: seq<Entry>)
    requires Spells(part, e) && IsName(e.name) && accepts(e.target) && IsTrimmed(e.target)
    requires forall f | f in out :: f.name != e.name
    ensures ReadPart(Trim(part), accepts, out) == Ok(e)
  {
    hide IsName, IsSpace, Trim, IsTrimmed;
    var a, b, c, d :| AreSpaces(a, b, c, d) && part == a + (e.name + (b + ("=" + (c + (e.target + d)))));
    TrimmedSpelling(a, e.name, b, c, e.target, d);
    NameIsPlain(e.name);
    NameIsThere(e.name);
    SpacesHaveNoEquals(b);
    var tail := if e.target == "" then "" else c + e.target;
    PairParts(e.name + b, tail);
    assert e.name + (b + ("=" + tail)) == e.name + b + "=" + tail;
    TrimSpaces("", e.name, b);
    assert "" + (e.name + b) == e.name + b;
  }

  lemma SpacesHaveNoEquals(w: string)
    requires AllSpace(w)
    ensures '=' !in w
  {
  }

  lemma ReadIsSpelled(part: string, e: Entry, accepts: string -> bool, out: seq<Entry>)
    requires ReadPart(Trim(part), accepts, out) == Ok(e)
    ensures Spells(part, e)
  {
    hide IsName, AllSpace, Trim, Spells;
    var t := Trim(part);
    var eq := Find('=', t);
    var x, y := TrimParts(part);
    var a, b := TrimParts(t[..eq]);
    var c, d := TrimParts(t[eq + 1..]);
    assert t == t[..eq] + ("=" + t[eq + 1..]);
    Spelling(x, a, e, b, c, d, y);
  }

  lemma Spelling(x: string, a: string, e: Entry, b: string, c: string, d: string, y: string)
    requires AreSpaces(a, b, c, d) && AllSpace(x) && AllSpace(y)
    ensures Spells(x + ((a + (e.name + b)) + ("=" + (c + (e.target + d))) + y), e)
  {
    hide AllSpace;
    SpacesTogether(x, a);
    SpacesTogether(d, y);
    assert AreSpaces(x + a, b, c, d + y);
    assert x + ((a + (e.name + b)) + ("=" + (c + (e.target + d))) + y)
        == (x + a) + (e.name + (b + ("=" + (c + (e.target + (d + y))))));
  }

  lemma SpacesTogether(a: string, b: string)
    requires AllSpace(a) && AllSpace(b)
    ensures AllSpace(a + b)
  {
  }

  lemma {:induction false} ReadPartsExtends(parts: seq<string>, accepts: string -> bool, out: seq<Entry>)
    ensures var r := ReadParts(parts, accepts, out); r.Ok? ==> out <= r.value && |r.value| == |out| + |parts|
    decreases |parts|
  {
    hide ReadPart;
    if parts != [] && ReadPart(parts[0], accepts, out).Ok? {
      ReadPartsExtends(parts[1..], accepts, out + [ReadPart(parts[0], accepts, out).value]);
    }
  }

  lemma {:induction false} PartsIff(parts: seq<string>, accepts: string -> bool, out: seq<Entry>, es: seq<Entry>)
    requires IsValidList(out, accepts) && forall p | p in parts :: ',' !in p
    ensures ReadParts(TrimmedParts(parts), accepts, out) == Ok(out + es) <==>
            SpellAll(NonBlank(parts), es) && IsValidList(out + es, accepts)
    decreases |parts|
  {
    hide ReadPart, Spells, AllSpace, Trim, IsListable, IsValidList;
    if parts == [] {
      assert out + [] == out;
      assert es != [] ==> |out + es| > |out|;
    } else if AllSpace(parts[0]) {
      assert TrimmedParts(parts) == TrimmedParts(parts[1..]) && NonBlank(parts) == NonBlank(parts[1..]);
      PartsIff(parts[1..], accepts, out, es);
    } else {
      PartIff(parts, accepts, out, es);
    }
  }

  lemma {:induction false} PartIff(parts: seq<string>, accepts: string -> bool, out: seq<Entry>, es: seq<Entry>)
    requires IsValidList(out, accepts) && forall p | p in parts :: ',' !in p
    requires parts != [] && !AllSpace(parts[0])
    ensures ReadParts(TrimmedParts(parts), accepts, out) == Ok(out + es) <==>
            SpellAll(NonBlank(parts), es) && IsValidList(out + es, accepts)
    decreases |parts|, 0
  {
    hide ReadPart, Spells, AllSpace, Trim, IsListable, IsValidList;
    var t, rest := Trim(parts[0]), TrimmedParts(parts[1..]);
    var read := ReadPart(t, accepts, out);
    TrimIsTrimmed(parts[0]);
    assert TrimmedParts(parts)[1..] == rest && NonBlank(parts)[1..] == NonBlank(parts[1..]);
    ReadPartsExtends(TrimmedParts(parts), accepts, out);
    if es != [] {
      var e := es[0];
      assert out + es == (out + [e]) + es[1..];
      if read == Ok(e) {
        ReadIsSpelled(parts[0], e, accepts, out);
        ReadIsListable(t, accepts, out);
        ValidGrows(out, e, accepts);
        PartsIff(parts[1..], accepts, out + [e], es[1..]);
        SpellRest(NonBlank(parts), es);
      } else {
        if read.Ok? {
          ReadPartsExtends(rest, accepts, out + [read.value]);
          assert (out + [read.value])[|out|] == read.value && (out + es)[|out|] == e;
        }
        if SpellAll(NonBlank(parts), es) && IsValidList(out + es, accepts) {
          ValidHead(out, es, accepts);
          SpellRest(NonBlank(parts), es);
          HeadIsRead(parts[0], e, accepts, out);
        }
      }
    }
  }

  lemma HeadIsRead(part: string, e: Entry, accepts: string -> bool, out: seq<Entry>)
    requires Spells(part, e) && IsListable(e, accepts) && forall f | f in out :: f.name != e.name
    ensures ReadPart(Trim(part), accepts, out) == Ok(e)
  {
    hide ReadPart, Spells, Trim;
    SpellingIsRead(part, e, accepts, out);
  }

  lemma ValidGrows(out: seq<Entry>, e: Entry, accepts: string -> bool)
    requires IsValidList(out, accepts) && IsListable(e, accepts) && forall f | f in out :: f.name != e.name
    ensures IsValidList(out + [e], accepts)
  {
    hide IsListable;
  }

  lemma SpellRest(parts: seq<string>, es: seq<Entry>)
    requires parts != [] && es != []
    ensures SpellAll(parts, es) <==> Spells(parts[0], es[0]) && SpellAll(parts[1..], es[1..])
  {
    hide Spells;
    if Spells(parts[0], es[0]) && SpellAll(parts[1..], es[1..]) {
      forall i | 0 <= i < |parts|
        ensures Spells(parts[i], es[i])
      {
        assert i > 0 ==> Spells(parts[1..][i - 1], es[1..][i - 1]);
      }
    }
  }

  /**
   * A list is accepted, and as these entries, if and only if its parts, blank ones aside, spell them one by
   * one and they are valid. Every other list is refused; nothing in it is skipped.
   */
  lemma AcceptedIff(raw: string, accepts: string -> bool, es: seq<Entry>)
    ensures Parsed(raw, accepts) == Ok(es) <==> SpellAll(NonBlank(Split(raw, ',')), es) && IsValidList(es, accepts)
  {
    hide ReadParts, TrimmedParts, Split, IsListable, SpellAll, NonBlank;
    SplitHasNoSep(raw, ',');
    PartsIff(Split(raw, ','), accepts, [], es);
    assert [] + es == es;
  }

  // ---- The registry ----

  /** A remote cluster, over a queue or over the network. */
  datatype Bridge = Bridge(name: string, target: string, http: bool)

  datatype Registry = Registry(local: Option<string>, bridges: seq<Bridge>, strict: bool, names: seq<string>)

  datatype RegistryError = InBoth(name: string) | BadLocal(name: string) | LocalIsRemote(name: string)

  function Bridges(es: seq<Entry>, http: bool): (bs: seq<Bridge>)
    ensures |bs| == |es| && forall i | 0 <= i < |es| :: bs[i] == Bridge(es[i].name, es[i].target, http)
  {
    if es == [] then [] else [Bridge(es[0].name, es[0].target, http)] + Bridges(es[1..], http)
  }

  function Names(bs: seq<Bridge>): (ns: seq<string>)
    ensures |ns| == |bs| && forall i | 0 <= i < |bs| :: ns[i] == bs[i].name
  {
    if bs == [] then [] else [bs[0].name] + Names(bs[1..])
  }

  /** The first queue cluster that is also a network cluster. */
  function FirstShared(sqs: seq<Entry>, http: seq<Entry>): (r: Option<string>)
    ensures r.None? ==> forall a, b | a in sqs && b in http :: a.name != b.name
  {
    if sqs == [] then None
    else if exists h :: h in http && h.name == sqs[0].name then Some(sqs[0].name)
    else FirstShared(sqs[1..], http)
  }

  function ClusterRegistry(local: Option<string>, sqs: seq<Entry>, http: seq<Entry>): Result<Registry, RegistryError> {
    var both := FirstShared(sqs, http);
    var bridges := Bridges(sqs, false) + Bridges(http, true);
    if both.Some? then Err(InBoth(both.value))
    else if local.Some? && !IsName(local.value) then Err(BadLocal(local.value))
    else if local.Some? && local.value in Names(bridges) then Err(LocalIsRemote(local.value))
    else
      Ok(Registry(local, bridges, local.Some? || bridges != [],
                  (if local.Some? then [local.value] else []) + Names(bridges)))
  }

  /** A registry that configuration can give. */
  predicate IsConfigured(r: Registry, local: Option<string>, sqs: seq<Entry>, http: seq<Entry>) {
    && IsValidList(sqs, IsQueue) && IsValidList(http, IsUrl)
    && ClusterRegistry(local, sqs, http) == Ok(r)
  }

  /** Some cluster is configured: this one, one behind a queue, or one on the network. */
  predicate HasClusters(local: Option<string>, sqs: seq<Entry>, http: seq<Entry>) {
    local.Some? || sqs != [] || http != []
  }

  /** Calls are routed by cluster if and only if some cluster is configured. */
  lemma StrictIff(r: Registry, local: Option<string>, sqs: seq<Entry>, http: seq<Entry>)
    requires IsConfigured(r, local, sqs, http)
    ensures r.strict <==> HasClusters(local, sqs, http)
    ensures r.names != [] <==> HasClusters(local, sqs, http)
  {
    hide IsName, IsValidList, FirstShared;
    assert |Bridges(sqs, false) + Bridges(http, true)| == |sqs| + |http|;
  }

  /** No two clusters share a name, and every name can stand in a matcher as it is. */
  lemma NamesAreDistinct(r: Registry, local: Option<string>, sqs: seq<Entry>, http: seq<Entry>)
    requires IsConfigured(r, local, sqs, http)
    ensures Distinct(r.names) && forall n | n in r.names :: IsName(n)
  {
    hide IsName;
    var bs := r.bridges;
    BridgeNames(sqs, http);
    var ns := Names(bs);
    if local.Some? {
      assert r.names[0] == local.value && r.names[1..] == ns;
    } else {
      assert r.names == ns;
    }
  }

  lemma BridgeNames(sqs: seq<Entry>, http: seq<Entry>)
    requires IsValidList(sqs, IsQueue) && IsValidList(http, IsUrl) && FirstShared(sqs, http).None?
    ensures var ns := Names(Bridges(sqs, false) + Bridges(http, true)); Distinct(ns) && forall n | n in ns :: IsName(n)
  {
    hide IsName, IsQueue, IsUrl, FirstShared, IsListable, DistinctNames;
    BridgesAreDistinct(sqs, http);
    BridgesAreNamed(sqs, http);
  }

  lemma BridgesAreDistinct(sqs: seq<Entry>, http: seq<Entry>)
    requires DistinctNames(sqs) && DistinctNames(http) && FirstShared(sqs, http).None?
    ensures Distinct(Names(Bridges(sqs, false) + Bridges(http, true)))
  {
    hide FirstShared;
    var bs := Bridges(sqs, false) + Bridges(http, true);
    var ns := Names(bs);
    forall i, j | 0 <= i < j < |ns|
      ensures ns[i] != ns[j]
    {
      assert ns[i] == bs[i].name && ns[j] == bs[j].name;
      if i < |sqs| && j >= |sqs| {
        assert sqs[i] in sqs && http[j - |sqs|] in http;
      }
    }
  }

  lemma BridgesAreNamed(sqs: seq<Entry>, http: seq<Entry>)
    requires forall e | e in sqs :: IsListable(e, IsQueue)
    requires forall e | e in http :: IsListable(e, IsUrl)
    ensures forall n | n in Names(Bridges(sqs, false) + Bridges(http, true)) :: IsName(n)
  {
    hide IsName, IsQueue, IsUrl, FirstShared;
    var ns := Names(Bridges(sqs, false) + Bridges(http, true));
    forall n | n in ns
      ensures IsName(n)
    {
      var i :| 0 <= i < |ns| && ns[i] == n;
      assert i < |sqs| ==> sqs[i] in sqs;
      assert i >= |sqs| ==> http[i - |sqs|] in http;
    }
  }

  // ---- Routing ----

  /** A tool call. `query` is there when the input has one that is a text. */
  datatype Call = Call(tool: string, query: Option<string>, rest: string)

  datatype Server = Central | Remote(bridge: Bridge)

  datatype Outcome = Reaches(server: Server, call: Call) | NoCluster | UnknownCluster(cluster: string)

  predicate StartsWith(s: string, prefix: string) { |s| >= |prefix| && s[..|prefix|] == prefix }

  predicate IsClusterTool(tool: string) { StartsWith(tool, "k8s_") || StartsWith(tool, "flux_") }

  function QueryLanguage(tool: string): Option<Scope.Lang> {
    if tool == "prometheus_query" || tool == "prometheus_query_range" then Some(Scope.PromQL)
    else if tool == "loki_query" || tool == "loki_query_range" || tool == "loki_get_streams" || tool == "loki_get_stats"
    then Some(Scope.LogQL)
    else None
  }

  /** No cluster bound, never or on purpose, reads as the empty name. */
  predicate IsBound(current: Option<string>) { current.Some? && current.value != "" }

  function ScopedCall(call: Call, current: Option<string>): Call {
    var lang := QueryLanguage(call.tool);
    if !IsBound(current) || lang.None? || call.query.None? then call
    else call.(query := Some(Scope.Scoped(call.query.value, current.value, lang.value)))
  }

  /** The bridge under a name; of several, the last one put into the map. */
  function BridgeNamed(bs: seq<Bridge>, name: string): Option<Bridge> {
    if bs == [] then None
    else if bs[|bs| - 1].name == name then Some(bs[|bs| - 1])
    else BridgeNamed(bs[..|bs| - 1], name)
  }

  function CallTool(r: Registry, current: Option<string>, call: Call): Outcome {
    if !r.strict then Reaches(Central, call)
    else if !IsClusterTool(call.tool) then Reaches(Central, ScopedCall(call, current))
    else if !IsBound(current) then NoCluster
    else if current == r.local then Reaches(Central, call)
    else
      var b := BridgeNamed(r.bridges, current.value);
      if b.None? then UnknownCluster(current.value) else Reaches(Remote(b.value), call)
  }

  function ClusterTools(tools: seq<string>): seq<string> {
    if tools == [] then [] else (if IsClusterTool(tools[0]) then [tools[0]] else []) + ClusterTools(tools[1..])
  }

  function SharedTools(tools: seq<string>): seq<string> {
    if tools == [] then [] else (if IsClusterTool(tools[0]) then [] else [tools[0]]) + SharedTools(tools[1..])
  }

  /** `toolsOf` is what each server says it has. */
  function GetTools(r: Registry, current: Option<string>, toolsOf: Server -> seq<string>): seq<string> {
    if !r.strict then toolsOf(Central)
    else
      var shared := SharedTools(toolsOf(Central));
      if !IsBound(current) then shared
      else if current == r.local then shared + ClusterTools(toolsOf(Central))
      else
        var b := BridgeNamed(r.bridges, current.value);
        if b.None? then shared else shared + ClusterTools(toolsOf(Remote(b.value)))
  }

  /** The one server whose Kubernetes is this cluster's. */
  ghost predicate Serves(r: Registry, s: Server, cluster: string) {
    match s
    case Central => r.local == Some(cluster)
    case Remote(b) => b in r.bridges && b.name == cluster
  }

  lemma {:induction false} BridgeIsNamed(bs: seq<Bridge>, name: string)
    ensures var b := BridgeNamed(bs, name);
            && (b.Some? <==> name in Names(bs))
            && (b.Some? ==> b.value in bs && b.value.name == name)
  {
    if bs != [] {
      var n := |bs| - 1;
      BridgeIsNamed(bs[..n], name);
      var ns, ms := Names(bs), Names(bs[..n]);
      assert ns[n] == bs[n].name;
      assert forall i | 0 <= i < n :: ms[i] == ns[i];
      if name in ns {
        var i :| 0 <= i <= n && ns[i] == name;
        assert i < n ==> ms[i] == name;
      }
      if name in ms {
        var i :| 0 <= i < n && ms[i] == name;
        assert ns[i] == name;
      }
    }
  }

  lemma OneBridgePerName(r: Registry, local: Option<string>, sqs: seq<Entry>, http: seq<Entry>, a: Bridge, b: Bridge)
    requires IsConfigured(r, local, sqs, http) && a in r.bridges && b in r.bridges && a.name == b.name
    ensures a == b && r.local != Some(a.name)
  {
    hide IsName, IsQueue, IsUrl, FirstShared, IsListable, DistinctNames;
    BridgeNames(sqs, http);
    var ns := Names(r.bridges);
    var i :| 0 <= i < |r.bridges| && r.bridges[i] == a;
    var j :| 0 <= j < |r.bridges| && r.bridges[j] == b;
    assert ns[i] == ns[j];
  }

  /**
   * A cluster tool reaches a server if and only if that server's cluster is the bound one; it is refused
   * when none is bound, and when the registry does not know the bound one. The call is sent as it is.
   */
  lemma ClusterToolsReachTheirCluster(r: Registry, local: Option<string>, sqs: seq<Entry>, http: seq<Entry>,
                                      current: Option<string>, call: Call, s: Server)
    requires IsConfigured(r, local, sqs, http) && HasClusters(local, sqs, http) && IsClusterTool(call.tool)
    ensures var o := CallTool(r, current, call);
            && (o == Reaches(s, call) <==> IsBound(current) && Serves(r, s, current.value))
            && (o == NoCluster <==> !IsBound(current))
            && (o.UnknownCluster? <==> IsBound(current) && current.value !in r.names)
            && (o.Reaches? ==> o.call == call)
  {
    hide IsName, IsClusterTool, IsConfigured;
    StrictIff(r, local, sqs, http);
    LocalIsNamed(r, local, sqs, http);
    if IsBound(current) {
      var name := current.value;
      BridgeIsNamed(r.bridges, name);
      var b := BridgeNamed(r.bridges, name);
      if s.Remote? && Serves(r, s, name) {
        NamedIn(r.bridges, s.bridge);
        OneBridgePerName(r, local, sqs, http, s.bridge, b.value);
      } else if b.Some? {
        OneBridgePerName(r, local, sqs, http, b.value, b.value);
      }
    }
  }

  lemma NamedIn(bs: seq<Bridge>, b: Bridge)
    requires b in bs
    ensures b.name in Names(bs)
  {
    var i :| 0 <= i < |bs| && bs[i] == b;
    assert Names(bs)[i] == b.name;
  }

  lemma LocalIsNamed(r: Registry, local: Option<string>, sqs: seq<Entry>, http: seq<Entry>)
    requires IsConfigured(r, local, sqs, http)
    ensures r.local == local && r.names == (if local.Some? then [local.value] else []) + Names(r.bridges)
  {
    hide IsName, IsValidList;
  }

  /** Every name of the registry has a server, and a cluster tool bound to it reaches it. */
  lemma EveryClusterIsServed(r: Registry, local: Option<string>, sqs: seq<Entry>, http: seq<Entry>, name: string,
      call: Call)
    requires IsConfigured(r, local, sqs, http) && IsClusterTool(call.tool) && name in r.names
    ensures var o := CallTool(r, Some(name), call); o.Reaches? && Serves(r, o.server, name) && o.call == call
  {
    hide IsName, IsClusterTool, IsConfigured;
    StrictIff(r, local, sqs, http);
    LocalIsNamed(r, local, sqs, http);
    NamesAreDistinct(r, local, sqs, http);
    NameIsThere(name);
    BridgeIsNamed(r.bridges, name);
  }

  /** Every other tool goes to the central server, its query held to the bound cluster, the rest as it is. */
  lemma CentralToolsAreHeld(r: Registry, local: Option<string>, sqs: seq<Entry>, http: seq<Entry>,
                            current: Option<string>, call: Call)
    requires IsConfigured(r, local, sqs, http) && HasClusters(local, sqs, http) && !IsClusterTool(call.tool)
    ensures var o, lang := CallTool(r, current, call), QueryLanguage(call.tool);
            && o.Reaches? && o.server == Central && o.call.tool == call.tool && o.call.rest == call.rest
            && o.call.query ==
               (if call.query.Some? && lang.Some? && IsBound(current)
                then Some(Scope.Scoped(call.query.value, current.value, lang.value)) else call.query)
  {
    hide IsConfigured, IsClusterTool, QueryLanguage;
    StrictIff(r, local, sqs, http);
  }

  /** Without any cluster configured every call goes to the central server as it is. */
  lemma WithoutClusters(r: Registry, current: Option<string>, call: Call)
    requires IsConfigured(r, None, [], [])
    ensures CallTool(r, current, call) == Reaches(Central, call)
  {
    hide IsConfigured, IsClusterTool;
    StrictIff(r, None, [], []);
  }

  /** The Kubernetes and Flux tools are a cluster's own, by their names. */
  lemma ClusterToolIff(tool: string)
    ensures IsClusterTool(tool) <==> exists t: string :: tool == "k8s_" + t || tool == "flux_" + t
  {
    if StartsWith(tool, "k8s_") {
      assert tool == "k8s_" + tool[4..];
    }
    if StartsWith(tool, "flux_") {
      assert tool == "flux_" + tool[5..];
    }
    if t: string :| tool == "k8s_" + t || tool == "flux_" + t {
      assert tool == "k8s_" + t ==> tool[..4] == "k8s_";
      assert tool == "flux_" + t ==> tool[..5] == "flux_";
    }
  }

  lemma QueryToolsAreCentral(tool: string)
    ensures QueryLanguage(tool).Some? ==> !IsClusterTool(tool)
  {
    if QueryLanguage(tool).Some? {
      assert tool[0] == 'p' || tool[0] == 'l';
      assert tool[..4][0] == tool[0] && tool[..5][0] == tool[0];
    }
  }

  lemma {:induction false} ClusterToolsAre(tools: seq<string>, t: string)
    ensures (t in ClusterTools(tools) <==> t in tools && IsClusterTool(t))
    ensures (t in SharedTools(tools) <==> t in tools && !IsClusterTool(t))
  {
    hide IsClusterTool;
    if tools != [] {
      ClusterToolsAre(tools[1..], t);
      assert tools == [tools[0]] + tools[1..];
    }
  }

  /** A tool is offered if and only if calling it reaches a server that has it. */
  lemma OfferedIffServed(r: Registry, current: Option<string>, toolsOf: Server -> seq<string>, call: Call)
    ensures call.tool in GetTools(r, current, toolsOf) <==>
            var o := CallTool(r, current, call); o.Reaches? && call.tool in toolsOf(o.server)
  {
    hide IsClusterTool, ScopedCall, ClusterTools, SharedTools, BridgeNamed;
    ClusterToolsAre(toolsOf(Central), call.tool);
    if IsBound(current) {
      var b := BridgeNamed(r.bridges, current.value);
      if b.Some? {
        ClusterToolsAre(toolsOf(Remote(b.value)), call.tool);
      }
    }
  }
}
