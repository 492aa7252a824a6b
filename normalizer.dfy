/** The list/map normalizer shared by the header decoders.

    List mode (header removal) accepts a list whose every element is a string.
    Map (fan-out) mode (headers to add, header options) accepts
      (a) a mapping from header name to a string,
      (b) a mapping from header name to a list of strings, one entry per element,
      (c) a list of single-entry mappings, one after the other, each decoded as in
          (a) or (b), which lets a name repeat in a chosen order.
    Entries that come from one mapping appear in Go's map iteration order, which
    is unspecified: the model picks the next key with `:|`, so it fixes SOME
    order and nothing may depend on which one. What is promised about a mapping
    is therefore stated over the multiset of entries. */
module Normalizer {
  import opened DecisionValue

  datatype HeaderEntry = HeaderEntry(name: string, value: string)

  /** A list of strings written as a decision list, element for element. */
  function StringValues(ss: seq<string>): (vs: seq<Value>)
    ensures |vs| == |ss|
    ensures forall i :: 0 <= i < |ss| ==> vs[i] == VStr(ss[i])
  {
    if ss == [] then [] else [VStr(ss[0])] + StringValues(ss[1..])
  }

  /** Writing strings as decision values loses nothing. */
  lemma StringValuesInjective(a: seq<string>, b: seq<string>)
    requires StringValues(a) == StringValues(b)
    ensures a == b
  {
    assert |a| == |b|;
    forall i | 0 <= i < |a| ensures a[i] == b[i] {
      assert StringValues(a)[i] == StringValues(b)[i];
    }
  }

  predicate IsStringList(v: Value) {
    v.VList? && forall i :: 0 <= i < |v.items| ==> v.items[i].VStr?
  }

  /** The strings of a list whose every element must be a string. */
  function StringsOf(key: string, xs: seq<Value>): (r: Result<seq<string>>)
    ensures r.Ok? <==> forall i :: 0 <= i < |xs| ==> xs[i].VStr?
    ensures r.Ok? ==> StringValues(r.value) == xs
    ensures r.Err? ==> r.error == ElementTypeError(key)
  {
    if xs == [] then Ok([])
    else if !xs[0].VStr? then Err(ElementTypeError(key))
    else
      match StringsOf(key, xs[1..])
      case Err(e) => Err(e)
      case Ok(rest) =>
        assert StringValues([xs[0].s] + rest) == [xs[0]] + xs[1..];
        Ok([xs[0].s] + rest)
  }

  /** List mode: the value under `key` must be a list of strings, and the
      strings come back in the same order. */
  function StringList(key: string, v: Value): (r: Result<seq<string>>)
    ensures r.Ok? <==> IsStringList(v)
    ensures r.Ok? ==> v == VList(StringValues(r.value))
    ensures r.Err? ==> r.error == (if v.VList? then ElementTypeError(key) else KeyTypeError(key))
  {
    match v
    case VList(xs) => StringsOf(key, xs)
    case _ => Err(KeyTypeError(key))
  }

  /** A header value accepted under one name: a string, or a list of strings. */
  predicate IsHeaderValue(v: Value) {
    v.VStr? || IsStringList(v)
  }

  predicate IsHeaderMapping(m: map<string, Value>) {
    forall name :: name in m ==> IsHeaderValue(m[name])
  }

  predicate IsSingleEntryMapping(v: Value) {
    v.VMap? && |v.fields| == 1 && IsHeaderMapping(v.fields)
  }

  /** The shapes map mode accepts. */
  predicate IsHeaderShape(v: Value) {
    || (v.VMap? && IsHeaderMapping(v.fields))
    || (v.VList? && forall i :: 0 <= i < |v.items| ==> IsSingleEntryMapping(v.items[i]))
  }

  /** How often `value` is given for one name whose decision value is `v`. */
  function Occurrences(value: string, v: Value): nat {
    match v
    case VStr(s) => if s == value then 1 else 0
    case VList(xs) => multiset(xs)[VStr(value)]
    case _ => 0
  }

  /** How often a mapping asks for header entry `e`. */
  function MappingCount(e: HeaderEntry, m: map<string, Value>): nat {
    if e.name in m then Occurrences(e.value, m[e.name]) else 0
  }

  /** How often a list of mappings asks for header entry `e`. */
  function ListCount(e: HeaderEntry, xs: seq<Value>): nat {
    if xs == [] then 0
    else (if xs[0].VMap? then MappingCount(e, xs[0].fields) else 0) + ListCount(e, xs[1..])
  }

  /** How often an accepted header shape asks for header entry `e`. */
  function Count(e: HeaderEntry, v: Value): nat {
    match v
    case VMap(m) => MappingCount(e, m)
    case VList(xs) => ListCount(e, xs)
    case _ => 0
  }

  /** One entry named `name` per string, in order. */
  function Named(name: string, ss: seq<string>): (es: seq<HeaderEntry>)
    ensures |es| == |ss|
    ensures forall i :: 0 <= i < |ss| ==> es[i] == HeaderEntry(name, ss[i])
  {
    if ss == [] then [] else [HeaderEntry(name, ss[0])] + Named(name, ss[1..])
  }

  lemma {:induction false} NamedCount(name: string, ss: seq<string>, e: HeaderEntry)
    ensures multiset(Named(name, ss))[e]
         == if e.name == name then multiset(StringValues(ss))[VStr(e.value)] else 0
  {
    if ss != [] {
      NamedCount(name, ss[1..], e);
    }
  }

  lemma NamedCountAll(name: string, ss: seq<string>)
    ensures forall e :: multiset(Named(name, ss))[e]
                     == if e.name == name then multiset(StringValues(ss))[VStr(e.value)] else 0
  {
    forall e ensures multiset(Named(name, ss))[e]
                  == if e.name == name then multiset(StringValues(ss))[VStr(e.value)] else 0 {
      NamedCount(name, ss, e);
    }
  }

  /** The entries one mapping entry `name: v` fans out to. */
  function FanOut(key: string, name: string, v: Value): (r: Result<seq<HeaderEntry>>)
    ensures r.Ok? <==> IsHeaderValue(v)
    ensures r.Err? ==> r.error == ElementTypeError(key)
    ensures r.Ok? ==> forall e :: multiset(r.value)[e] == if e.name == name then Occurrences(e.value, v) else 0
    ensures r.Ok? && v.VStr? ==> r.value == [HeaderEntry(name, v.s)]
  {
    match v
    case VStr(s) => Ok([HeaderEntry(name, s)])
    case VList(xs) =>
      (match StringsOf(key, xs)
       case Err(e) => Err(e)
       case Ok(ss) => NamedCountAll(name, ss); Ok(Named(name, ss)))
    case _ => Err(ElementTypeError(key))
  }

  /** A mapping is its entry `name` plus the rest. */
  lemma MappingSplit(m: map<string, Value>, name: string)
    requires name in m
    ensures IsHeaderMapping(m) <==> IsHeaderValue(m[name]) && IsHeaderMapping(m - {name})
    ensures forall e :: MappingCount(e, m)
                     == (if e.name == name then Occurrences(e.value, m[name]) else 0) + MappingCount(e, m - {name})
  {
    var rest := m - {name};
    if !IsHeaderMapping(m) {
      var bad :| bad in m && !IsHeaderValue(m[bad]);
      if bad != name { assert bad in rest && rest[bad] == m[bad]; }
    }
  }

  /** Shapes (a) and (b): every entry of a mapping, fanned out, in SOME order of
      the mapping's keys. */
  ghost function FromMapping(key: string, m: map<string, Value>): (r: Result<seq<HeaderEntry>>)
    ensures r.Ok? <==> IsHeaderMapping(m)
    ensures r.Err? ==> r.error == ElementTypeError(key)
    ensures r.Ok? ==> forall e :: multiset(r.value)[e] == MappingCount(e, m)
    decreases |m|
  {
    if m == map[] then Ok([])
    else
      var name :| name in m;
      MappingSplit(m, name);
      match FanOut(key, name, m[name])
      case Err(e) => Err(e)
      case Ok(first) =>
        match FromMapping(key, m - {name})
        case Err(e) => Err(e)
        case Ok(rest) => Ok(first + rest)
  }

  /** A mapping with one key decodes exactly as that key's fan-out. */
  lemma SingleKeyMapping(key: string, name: string, v: Value)
    ensures FromMapping(key, map[name := v]) == FanOut(key, name, v)
  {
    var m := map[name := v];
    assert forall n :: n in m ==> n == name;
    assert m - {name} == map[];
    assert FromMapping(key, m - {name}) == Ok([]);
    var r := FanOut(key, name, v);
    if r.Ok? {
      assert r.value + [] == r.value;
    }
  }

  /** Fan-out keeps the order of the list: the i-th string gives the i-th entry. */
  lemma FanOutList(key: string, name: string, ss: seq<string>)
    ensures FanOut(key, name, VList(StringValues(ss))) == Ok(Named(name, ss))
  {
    var r := StringsOf(key, StringValues(ss));
    assert r.Ok?;
    StringValuesInjective(r.value, ss);
  }

  /** A mapping `{name: [s0, s1, ...]}` decodes to one entry per string, in
      list order. */
  lemma SingleListMapping(key: string, name: string, ss: seq<string>)
    ensures HeaderEntries(key, VMap(map[name := VList(StringValues(ss))])) == Ok(Named(name, ss))
  {
    SingleKeyMapping(key, name, VList(StringValues(ss)));
    FanOutList(key, name, ss);
  }

  /** Shape (c): a list of single-entry mappings, in list order. */
  ghost function FromSingleEntryMappings(key: string, xs: seq<Value>): (r: Result<seq<HeaderEntry>>)
    ensures r.Ok? <==> forall i :: 0 <= i < |xs| ==> IsSingleEntryMapping(xs[i])
    ensures r.Err? ==> r.error == ElementTypeError(key)
    ensures r.Ok? ==> forall e :: multiset(r.value)[e] == ListCount(e, xs)
  {
    if xs == [] then Ok([])
    else if !(xs[0].VMap? && |xs[0].fields| == 1) then Err(ElementTypeError(key))
    else
      match FromMapping(key, xs[0].fields)
      case Err(e) => Err(e)
      case Ok(first) =>
        match FromSingleEntryMappings(key, xs[1..])
        case Err(e) =>
          assert exists i :: 0 <= i < |xs[1..]| && !IsSingleEntryMapping(xs[1..][i]);
          Err(e)
        case Ok(rest) =>
          assert forall i :: 0 < i < |xs| ==> xs[i] == xs[1..][i - 1];
          assert multiset(first + rest) == multiset(first) + multiset(rest);
          Ok(first + rest)
  }

  /** Single-entry mappings `{name: value}`, one per pair, in order. */
  function Mappings(ps: seq<(string, Value)>): (vs: seq<Value>)
    ensures |vs| == |ps|
    ensures forall i :: 0 <= i < |ps| ==> vs[i] == VMap(map[ps[i].0 := ps[i].1])
  {
    seq(|ps|, i requires 0 <= i < |ps| => VMap(map[ps[i].0 := ps[i].1]))
  }

  /** Reference order for shape (c): each pair's fan-out, one after the other. */
  function FanOuts(key: string, ps: seq<(string, Value)>): (r: Result<seq<HeaderEntry>>)
    ensures r.Ok? <==> forall i :: 0 <= i < |ps| ==> IsHeaderValue(ps[i].1)
    ensures r.Err? ==> r.error == ElementTypeError(key)
  {
    if ps == [] then Ok([])
    else
      match FanOut(key, ps[0].0, ps[0].1)
      case Err(e) => Err(e)
      case Ok(first) =>
        match FanOuts(key, ps[1..])
        case Err(e) => Err(e)
        case Ok(rest) =>
          assert forall i :: 0 < i < |ps| ==> ps[i] == ps[1..][i - 1];
          Ok(first + rest)
  }

  /** A list of single-entry mappings decodes as its head's fan-out followed by
      the entries of the rest. */
  lemma SingleEntryMappingsCons(key: string, name: string, v: Value, xs: seq<Value>)
    ensures var r := FromSingleEntryMappings(key, [VMap(map[name := v])] + xs);
            var first := FanOut(key, name, v);
            var rest := FromSingleEntryMappings(key, xs);
            && (first.Err? ==> r == first)
            && (first.Ok? && rest.Err? ==> r == rest)
            && (first.Ok? && rest.Ok? ==> r == Ok(first.value + rest.value))
  {
    var ys := [VMap(map[name := v])] + xs;
    assert ys[0] == VMap(map[name := v]) && ys[1..] == xs;
    assert |ys[0].fields| == 1;
    SingleKeyMapping(key, name, v);
  }

  /** Shape (c) keeps the list order exactly, whatever each name's value is:
      the entries are each mapping's fan-out, in list order. */
  lemma {:induction false} SingleEntryMappingsInOrder(key: string, ps: seq<(string, Value)>)
    ensures FromSingleEntryMappings(key, Mappings(ps)) == FanOuts(key, ps)
  {
    if ps == [] {
      assert Mappings(ps) == [];
    } else {
      SingleEntryMappingsInOrder(key, ps[1..]);
      assert Mappings(ps) == [VMap(map[ps[0].0 := ps[0].1])] + Mappings(ps[1..]);
      SingleEntryMappingsCons(key, ps[0].0, ps[0].1, Mappings(ps[1..]));
    }
  }

  /** Map (fan-out) mode: the entries of the value found under `key`. */
  ghost function HeaderEntries(key: string, v: Value): (r: Result<seq<HeaderEntry>>)
    ensures r.Ok? <==> IsHeaderShape(v)
    ensures r.Err? ==> r.error == (if v.VMap? || v.VList? then ElementTypeError(key) else KeyTypeError(key))
    ensures r.Ok? ==> forall e :: multiset(r.value)[e] == Count(e, v)
  {
    match v
    case VMap(m) => FromMapping(key, m)
    case VList(xs) => FromSingleEntryMappings(key, xs)
    case _ => Err(KeyTypeError(key))
  }
}
