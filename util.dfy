/** The object-path helpers of src/util.js: resolving a dotted path inside
    a value, and filtering a value by one path or by a list of paths. */
module Util {
  import opened Js

  /** One step of the walk: a truthy value is read at the segment, a falsy
      one collapses to null. */
  function Step(prev: Value, curr: string): Value {
    if Truthy(prev) then Get(prev, curr) else Null
  }

  /** The left fold of the steps over the segments, starting from `v`. */
  function Walk(v: Value, segs: seq<string>): Value
    decreases |segs|
  {
    if segs == [] then v else Walk(Step(v, segs[0]), segs[1..])
  }

  /** util.resolve: the path split at every "." and walked from `obj`. */
  function Resolve(path: string, obj: Value): Value {
    Walk(obj, Split(path, '.'))
  }

  /** Walking a concatenation of segment lists is walking one after the other. */
  lemma {:induction false} WalkAppend(v: Value, a: seq<string>, b: seq<string>)
    ensures Walk(v, a + b) == Walk(Walk(v, a), b)
    decreases |a|
  {
    if a == [] {
      assert a + b == b;
    } else {
      assert (a + b)[1..] == a[1..] + b;
      WalkAppend(Step(v, a[0]), a[1..], b);
    }
  }

  /** Once a falsy value is met, the rest of the walk gives null. */
  lemma {:induction false} WalkFromFalsy(v: Value, segs: seq<string>)
    requires !Truthy(v) && segs != []
    ensures Walk(v, segs) == Null
    decreases |segs|
  {
    if |segs| > 1 {
      WalkFromFalsy(Null, segs[1..]);
    }
  }

  /** If the value met after the first k segments (k less than their
      number) is falsy, the walk ends in null. */
  lemma WalkCollapses(v: Value, segs: seq<string>, k: nat)
    requires k < |segs| && !Truthy(Walk(v, segs[..k]))
    ensures Walk(v, segs) == Null
  {
    assert segs == segs[..k] + segs[k..];
    WalkAppend(v, segs[..k], segs[k..]);
    WalkFromFalsy(Walk(v, segs[..k]), segs[k..]);
  }

  /** A path without a dot is one property read on a truthy value, and null
      on a falsy one. */
  lemma ResolveNoDot(path: string, obj: Value)
    requires '.' !in path
    ensures Truthy(obj) ==> Resolve(path, obj) == Get(obj, path)
    ensures !Truthy(obj) ==> Resolve(path, obj) == Null
  {
    SplitFree(path, '.');
    assert Walk(obj, [path]) == Walk(Step(obj, path), [path][1..]);
    assert [path][1..] == [];
  }

  /** Every path resolves to null in a falsy value. */
  lemma ResolveFalsy(path: string, obj: Value)
    requires !Truthy(obj)
    ensures Resolve(path, obj) == Null
  {
    WalkFromFalsy(obj, Split(path, '.'));
  }

  /** Resolving `a.b` is resolving `b` inside what `a` resolves to. */
  lemma ResolveCompose(a: string, b: string, obj: Value)
    ensures Resolve(a + "." + b, obj) == Resolve(b, Resolve(a, obj))
  {
    assert a + "." + b == a + ['.'] + b;
    SplitConcat(a, b, '.');
    WalkAppend(obj, Split(a, '.'), Split(b, '.'));
  }

  /** The path joined from dot-free segments resolves by walking exactly
      those segments. */
  lemma ResolveJoined(segs: seq<string>, obj: Value)
    requires |segs| >= 1 && forall i :: 0 <= i < |segs| ==> '.' !in segs[i]
    ensures Resolve(JoinWith(segs, '.'), obj) == Walk(obj, segs)
  {
    SplitJoin(segs, '.');
  }

  predicate AllStrings(vs: seq<Value>) {
    forall i :: 0 <= i < |vs| ==> vs[i].Str?
  }

  /** The texts of a list of string values. */
  function Texts(vs: seq<Value>): (r: seq<string>)
    requires AllStrings(vs)
    ensures |r| == |vs| && forall i :: 0 <= i < |vs| ==> r[i] == vs[i].s
  {
    if vs == [] then [] else Texts(vs[..|vs| - 1]) + [vs[|vs| - 1].s]
  }

  /** The value each path resolves to, as `+=` onto a string makes it. */
  function ResolvedTexts(rt: Runtime, obj: Value, paths: seq<string>): (r: seq<string>)
    ensures |r| == |paths|
    ensures forall i :: 0 <= i < |paths| ==> r[i] == ToStr(rt, Resolve(paths[i], obj))
  {
    if paths == [] then [] else ResolvedTexts(rt, obj, paths[..|paths| - 1]) + [ToStr(rt, Resolve(paths[|paths| - 1], obj))]
  }

  /** Joining one more piece onto a non-empty join adds the separator and
      the piece. */
  lemma {:induction false} JoinSnoc(parts: seq<string>, p: string, sep: char)
    ensures parts == [] ==> JoinWith(parts + [p], sep) == p
    ensures parts != [] ==> JoinWith(parts + [p], sep) == JoinWith(parts, sep) + [sep] + p
    decreases |parts|
  {
    if |parts| == 1 {
      assert (parts + [p])[1..] == [p];
    } else if |parts| > 1 {
      assert (parts + [p])[1..] == parts[1..] + [p];
      JoinSnoc(parts[1..], p, sep);
    }
  }

  /** The text after index + 1 paths is the text after index paths, then
      the separator unless it is the first, then the new value's text. */
  lemma FilterStep(rt: Runtime, obj: Value, elems: seq<Value>, index: nat)
    requires index < |elems| && AllStrings(elems[..index]) && elems[index].Str?
    ensures AllStrings(elems[..index + 1])
    ensures JoinWith(ResolvedTexts(rt, obj, Texts(elems[..index + 1])), ';') ==
      (if index > 0 then JoinWith(ResolvedTexts(rt, obj, Texts(elems[..index])), ';') + ";" else "") +
      ToStr(rt, Resolve(elems[index].s, obj))
  {
    assert elems[..index + 1] == elems[..index] + [elems[index]];
    assert forall i :: 0 <= i < index + 1 ==> elems[..index + 1][i] == elems[i];
    var done := ResolvedTexts(rt, obj, Texts(elems[..index]));
    var text := ToStr(rt, Resolve(elems[index].s, obj));
    assert Texts(elems[..index + 1]) == Texts(elems[..index]) + [elems[index].s];
    assert ResolvedTexts(rt, obj, Texts(elems[..index + 1])) == done + [text];
    JoinSnoc(done, text, ';');
    if index == 0 {
      assert "" + text == text;
    }
  }

  /** util.filter. An array of paths gives the resolved values as text,
      joined with ";"; a single path gives the resolved value itself.
      A path that is not a string has no `split`, so the call throws. */
  method Filter(rt: Runtime, obj: Value, filter: Value) returns (r: Result<Value>)
    ensures filter.Arr? && AllStrings(filter.elems) ==>
      r == Ok(Str(JoinWith(ResolvedTexts(rt, obj, Texts(filter.elems)), ';')))
    ensures filter.Arr? && !AllStrings(filter.elems) ==> r == TypeError
    ensures filter.Str? ==> r == Ok(Resolve(filter.s, obj))
    ensures !filter.Arr? && !filter.Str? ==> r == TypeError
  {
    var result := "";
    var separator := ";";
    if filter.Arr? {
      var index := 0;
      while index < |filter.elems|
        invariant 0 <= index <= |filter.elems|
        invariant AllStrings(filter.elems[..index])
        invariant result == JoinWith(ResolvedTexts(rt, obj, Texts(filter.elems[..index])), ';')
      {
        if 0 < index {
          result := result + separator;
        }
        if !filter.elems[index].Str? {
          return TypeError;
        }
        var text := ToStr(rt, Resolve(filter.elems[index].s, obj));
        FilterStep(rt, obj, filter.elems, index);
        result := result + text;
        index := index + 1;
      }
      assert filter.elems[..index] == filter.elems;
      return Ok(Str(result));
    } else if filter.Str? {
      return Ok(Resolve(filter.s, obj));
    } else {
      return TypeError;
    }
  }

  /** An empty list of paths filters to the empty text. */
  lemma FilterEmpty(rt: Runtime, obj: Value)
    ensures JoinWith(ResolvedTexts(rt, obj, Texts([])), ';') == ""
  {
  }

  /** The number of times `c` occurs in `s`. */
  function Occurrences(s: string, c: char): nat {
    if s == [] then 0 else Occurrences(s[..|s| - 1], c) + (if s[|s| - 1] == c then 1 else 0)
  }

  lemma {:induction false} OccurrencesAppend(a: string, b: string, c: char)
    ensures Occurrences(a + b, c) == Occurrences(a, c) + Occurrences(b, c)
    decreases |b|
  {
    if b != [] {
      assert (a + b)[..|a + b| - 1] == a + b[..|b| - 1];
      OccurrencesAppend(a, b[..|b| - 1], c);
    } else {
      assert a + b == a;
    }
  }

  lemma {:induction false} OccurrencesFree(s: string, c: char)
    requires c !in s
    ensures Occurrences(s, c) == 0
    decreases |s|
  {
    if s != [] {
      OccurrencesFree(s[..|s| - 1], c);
    }
  }

  /** k pieces without the separator join with exactly k - 1 separators. */
  lemma {:induction false} JoinSeparators(parts: seq<string>, sep: char)
    requires |parts| >= 1 && forall i :: 0 <= i < |parts| ==> sep !in parts[i]
    ensures Occurrences(JoinWith(parts, sep), sep) == |parts| - 1
    decreases |parts|
  {
    OccurrencesFree(parts[0], sep);
    if |parts| > 1 {
      JoinSeparators(parts[1..], sep);
      OccurrencesAppend(parts[0] + [sep], JoinWith(parts[1..], sep), sep);
      OccurrencesAppend(parts[0], [sep], sep);
      assert Occurrences([sep], sep) == 1 by {
        assert [sep][..0] == [];
      }
    }
  }

  /** For k paths whose values print without ";", the filtered text holds
      exactly k - 1 separators and splits back into the k values in path
      order. */
  lemma FilterSplit(rt: Runtime, obj: Value, paths: seq<string>)
    requires |paths| >= 1
    requires forall i :: 0 <= i < |paths| ==> ';' !in ToStr(rt, Resolve(paths[i], obj))
    ensures Occurrences(JoinWith(ResolvedTexts(rt, obj, paths), ';'), ';') == |paths| - 1
    ensures Split(JoinWith(ResolvedTexts(rt, obj, paths), ';'), ';') == ResolvedTexts(rt, obj, paths)
  {
    var texts := ResolvedTexts(rt, obj, paths);
    JoinSeparators(texts, ';');
    SplitJoin(texts, ';');
  }
}
