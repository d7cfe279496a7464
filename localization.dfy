/**
 * Nested-key lookup of src/utils/localization.py.
 *
 * The translations are a JSON document. `GetText` splits the key on '.' and
 * follows the segments from the root, stopping at the first string; a missing
 * segment yields the "missing translation" text. Formatting is a parameter:
 * Python's `str.format` is not part of this model.
 */
module Localization {
  import opened Wrappers

  /** A JSON value as `json.loads` produces it. */
  datatype Json =
    | JString(s: string)
    | JObject(members: map<string, Json>)
    | JArray(items: seq<Json>)
    | JNumber(n: int)
    | JBool(b: bool)
    | JNull

  /** The only error the walk can raise: `.get` on a value that is not a dict. */
  datatype LookupError = NoAttributeGet

  const MissingPrefix: string := "❌ Missing translation: "

  /** The text returned for a key whose path breaks off. */
  function MissingText(key: string): Json
  {
    JString(MissingPrefix + key)
  }

  // ---------------------------------------------------------------------------
  // `key.split('.')` and its inverse
  // ---------------------------------------------------------------------------

  /** Python's `s.split(sep)` for a one-character separator. */
  function Split(s: string, sep: char): (parts: seq<string>)
    ensures |parts| >= 1
    ensures forall p | p in parts :: sep !in p
  {
    if |s| == 0 then [""]
    else
      var rest := Split(s[1..], sep);
      if s[0] == sep then [""] + rest else [[s[0]] + rest[0]] + rest[1..]
  }

  /** Python's `sep.join(parts)`. */
  function Join(parts: seq<string>, sep: char): string
    requires |parts| >= 1
  {
    if |parts| == 1 then parts[0] else parts[0] + [sep] + Join(parts[1..], sep)
  }

  /** Joining the segments of a key gives the key back. */
  lemma {:induction false} JoinSplit(s: string, sep: char)
    ensures Join(Split(s, sep), sep) == s
  {
    if |s| > 0 {
      JoinSplit(s[1..], sep);
      var rest := Split(s[1..], sep);
      if s[0] == sep {
        assert Split(s, sep) == [""] + rest;
        assert ([""] + rest)[1..] == rest;
        assert s == [sep] + s[1..];
      } else {
        var parts := [[s[0]] + rest[0]] + rest[1..];
        assert Split(s, sep) == parts;
        if |rest| == 1 {
          assert Join(parts, sep) == [s[0]] + rest[0];
        } else {
          assert parts[1..] == rest[1..];
          assert Join(rest, sep) == rest[0] + [sep] + Join(rest[1..], sep);
        }
        assert s == [s[0]] + s[1..];
      }
    }
  }

  /** A string without the separator is one segment. */
  lemma {:induction false} SplitWhole(a: string, sep: char)
    requires sep !in a
    ensures Split(a, sep) == [a]
  {
    if |a| > 0 {
      SplitWhole(a[1..], sep);
      assert [a[0]] + a[1..] == a;
    }
  }

  /** A separator after a clean segment starts a new segment. */
  lemma {:induction false} SplitAfterSegment(a: string, sep: char, t: string)
    requires sep !in a
    ensures Split(a + [sep] + t, sep) == [a] + Split(t, sep)
  {
    if |a| == 0 {
      assert a + [sep] + t == [sep] + t;
      assert ([sep] + t)[1..] == t;
    } else {
      SplitAfterSegment(a[1..], sep, t);
      var s := a + [sep] + t;
      assert s[0] == a[0] && s[1..] == a[1..] + [sep] + t;
      assert [a[0]] + a[1..] == a;
    }
  }

  /** Splitting a join of separator-free segments gives the segments back. */
  lemma {:induction false} SplitJoin(parts: seq<string>, sep: char)
    requires |parts| >= 1
    requires forall p | p in parts :: sep !in p
    ensures Split(Join(parts, sep), sep) == parts
  {
    if |parts| == 1 {
      SplitWhole(parts[0], sep);
    } else {
      assert parts[0] in parts;
      assert forall p | p in parts[1..] :: p in parts;
      SplitJoin(parts[1..], sep);
      SplitAfterSegment(parts[0], sep, Join(parts[1..], sep));
      assert [parts[0]] + parts[1..] == parts;
    }
  }

  // ---------------------------------------------------------------------------
  // The walk
  // ---------------------------------------------------------------------------

  /** The loop of `get_text`: one `.get` per segment, stopping at the first string. */
  function Walk(t: Json, parts: seq<string>, key: string): Result<Json, LookupError>
  {
    if parts == [] then Success(t)
    else if !t.JObject? then Failure(NoAttributeGet)
    else
      var next := if parts[0] in t.members then t.members[parts[0]] else MissingText(key);
      if next.JString? then Success(next) else Walk(next, parts[1..], key)
  }

  /** Plain path lookup in the document: member by member, with no stop at strings. */
  function Lookup(t: Json, path: seq<string>): Option<Json>
  {
    if path == [] then Some(t)
    else if t.JObject? && path[0] in t.members then Lookup(t.members[path[0]], path[1..])
    else None
  }

  /** The first `n` prefixes of `parts` (lengths 0 to n - 1) all lead to objects. */
  ghost predicate ObjectPrefix(t: Json, parts: seq<string>, n: nat)
  {
    forall k | 0 <= k < n && k <= |parts| :: Lookup(t, parts[..k]).Some? && Lookup(t, parts[..k]).value.JObject?
  }

  /** Looking up a prefix of `parts` through the first member. */
  lemma LookupStep(t: Json, parts: seq<string>, k: nat)
    requires 1 <= k <= |parts| && t.JObject? && parts[0] in t.members
    ensures Lookup(t, parts[..k]) == Lookup(t.members[parts[0]], parts[1..][..k - 1])
  {
    assert parts[..k][0] == parts[0] && parts[..k][1..] == parts[1..][..k - 1];
  }

  /** A lookup through a missing first member finds nothing. */
  lemma LookupMissing(t: Json, parts: seq<string>, k: nat)
    requires 1 <= k <= |parts| && !(t.JObject? && parts[0] in t.members)
    ensures Lookup(t, parts[..k]) == None
  {
    assert parts[..k][0] == parts[0];
  }

  /** Object prefixes of `parts` are the root object followed by object prefixes below the first member. */
  lemma ObjectPrefixStep(t: Json, parts: seq<string>, n: nat)
    requires 1 <= n <= |parts| && t.JObject? && parts[0] in t.members
    ensures ObjectPrefix(t, parts, n) <==> ObjectPrefix(t.members[parts[0]], parts[1..], n - 1)
  {
    var next := t.members[parts[0]];
    assert parts[..0] == [];
    forall k | 1 <= k < n
      ensures Lookup(t, parts[..k]) == Lookup(next, parts[1..][..k - 1])
    {
      LookupStep(t, parts, k);
    }
    if ObjectPrefix(t, parts, n) {
      forall k | 0 <= k < n - 1 && k <= |parts[1..]|
        ensures Lookup(next, parts[1..][..k]).Some? && Lookup(next, parts[1..][..k]).value.JObject?
      {
        assert Lookup(t, parts[..k + 1]) == Lookup(next, parts[1..][..k]);
      }
    }
    if ObjectPrefix(next, parts[1..], n - 1) {
      forall k | 0 <= k < n && k <= |parts|
        ensures Lookup(t, parts[..k]).Some? && Lookup(t, parts[..k]).value.JObject?
      {
        if k > 0 {
          assert Lookup(t, parts[..k]) == Lookup(next, parts[1..][..k - 1]);
        }
      }
    }
  }

  /**
   * Whatever the document, following a key whose first i segments lead
   * through objects to `leaf` gives `leaf`; a string found before the last
   * segment is returned at once.
   */
  lemma {:induction false} WalkReachesLeaf(t: Json, parts: seq<string>, i: nat, leaf: Json, key: string)
    requires 1 <= i <= |parts|
    requires ObjectPrefix(t, parts, i) && Lookup(t, parts[..i]) == Some(leaf)
    requires i < |parts| ==> leaf.JString?
    ensures Walk(t, parts, key) == Success(leaf)
  {
    assert parts[..0] == [];
    assert Lookup(t, parts[..0]) == Some(t);
    if parts[0] !in t.members {
      LookupMissing(t, parts, i);
    }
    var next := t.members[parts[0]];
    LookupStep(t, parts, i);
    if i == 1 {
      assert parts[1..][..0] == [];
      if !next.JString? {
        assert parts[1..] == [];
      }
    } else {
      LookupStep(t, parts, 1);
      assert parts[1..][..0] == [];
      ObjectPrefixStep(t, parts, i);
      WalkReachesLeaf(next, parts[1..], i - 1, leaf, key);
    }
  }

  /**
   * Whatever the document, a key whose first i segments lead through objects
   * and whose next segment is missing yields the missing-translation text.
   */
  lemma {:induction false} WalkStopsAtMissing(t: Json, parts: seq<string>, i: nat, key: string)
    requires i < |parts| && ObjectPrefix(t, parts, i)
    requires Lookup(t, parts[..i]).Some? && Lookup(t, parts[..i]).value.JObject?
    requires parts[i] !in Lookup(t, parts[..i]).value.members
    ensures Walk(t, parts, key) == Success(MissingText(key))
  {
    assert parts[..0] == [];
    if i > 0 {
      assert Lookup(t, parts[..0]) == Some(t);
      if parts[0] !in t.members {
        LookupMissing(t, parts, i);
      }
      var next := t.members[parts[0]];
      LookupStep(t, parts, i);
      LookupStep(t, parts, 1);
      assert parts[1..][..0] == [];
      if i > 1 {
        assert Lookup(t, parts[..1]).value.JObject?;
      }
      assert !next.JString?;
      ObjectPrefixStep(t, parts, i);
      WalkStopsAtMissing(next, parts[1..], i - 1, key);
    }
  }

  /**
   * The walk breaks at prefix j: every shorter prefix leads to an object and
   * prefix j leads to a value that is not an object and that the loop does
   * not stop at (a string at the root is not checked before the first `.get`).
   */
  ghost predicate BreaksAt(t: Json, parts: seq<string>, j: nat)
  {
    && j < |parts| && ObjectPrefix(t, parts, j)
    && Lookup(t, parts[..j]).Some?
    && !Lookup(t, parts[..j]).value.JObject?
    && (j == 0 || !Lookup(t, parts[..j]).value.JString?)
  }

  /** The walk raises exactly when it breaks at some prefix of the key. */
  lemma {:induction false} WalkOutcome(t: Json, parts: seq<string>, key: string)
    ensures Walk(t, parts, key).Failure? <==> exists j: nat :: BreaksAt(t, parts, j)
  {
    if parts == [] {
    } else if !t.JObject? {
      assert parts[..0] == [];
      assert BreaksAt(t, parts, 0);
    } else {
      assert parts[..0] == [];
      assert !BreaksAt(t, parts, 0);
      if parts[0] !in t.members {
        forall j: nat | 1 <= j ensures !BreaksAt(t, parts, j)
        {
          if j <= |parts| {
            LookupMissing(t, parts, j);
          }
        }
      } else {
        var next := t.members[parts[0]];
        LookupStep(t, parts, 1);
        assert parts[1..][..0] == [];
        if next.JString? {
          assert !BreaksAt(t, parts, 1);
          forall j: nat | 2 <= j ensures !BreaksAt(t, parts, j)
          {
            if j < |parts| {
              assert !(Lookup(t, parts[..1]).Some? && Lookup(t, parts[..1]).value.JObject?);
            }
          }
        } else {
          WalkOutcome(next, parts[1..], key);
          forall j: nat | 1 <= j ensures BreaksAt(t, parts, j) <==> BreaksAt(next, parts[1..], j - 1)
          {
            if j < |parts| {
              LookupStep(t, parts, j);
              ObjectPrefixStep(t, parts, j);
            }
          }
          if exists j: nat :: BreaksAt(next, parts[1..], j) {
            var j: nat :| BreaksAt(next, parts[1..], j);
            assert BreaksAt(t, parts, j + 1);
          }
          if exists j: nat :: BreaksAt(t, parts, j) {
            var j: nat :| BreaksAt(t, parts, j);
            assert j >= 1 && BreaksAt(next, parts[1..], j - 1);
          }
        }
      }
    }
  }

  /** The loaded translations; `load_locale`, which fills them, is not part of this model. */
  class Localization {
    var translations: Json

    constructor (translations: Json)
      ensures this.translations == translations
    {
      this.translations := translations;
    }

    /**
     * `get_text`: the value the walk finds, formatted only when `kwargs` is
     * non-empty and the value is a string. No field is modified.
     */
    method GetText(key: string, kwargs: map<string, string>, format: (string, map<string, string>) -> string)
      returns (r: Result<Json, LookupError>)
      ensures var found := Walk(translations, Split(key, '.'), key);
        r == if |kwargs| > 0 && found.Success? && found.value.JString?
             then Success(JString(format(found.value.s, kwargs)))
             else found
    {
      var translation := translations;
      var parts := Split(key, '.');
      var i := 0;
      while i < |parts|
        invariant 0 <= i <= |parts|
        invariant Walk(translations, parts, key) == Walk(translation, parts[i..], key)
      {
        if !translation.JObject? {
          return Failure(NoAttributeGet);
        }
        var part := parts[i];
        translation := if part in translation.members then translation.members[part] else MissingText(key);
        i := i + 1;
        if translation.JString? {
          break;
        }
      }
      if |kwargs| > 0 && translation.JString? {
        r := Success(JString(format(translation.s, kwargs)));
      } else {
        r := Success(translation);
      }
    }
  }

  /** A key whose whole path leads through objects to a string gets that string, in any document. */
  lemma GetTextOfPresentKey(t: Json, key: string, s: string)
    requires ObjectPrefix(t, Split(key, '.'), |Split(key, '.')|)
    requires Lookup(t, Split(key, '.')) == Some(JString(s))
    ensures Walk(t, Split(key, '.'), key) == Success(JString(s))
  {
    var parts := Split(key, '.');
    assert parts[..|parts|] == parts;
    WalkReachesLeaf(t, parts, |parts|, JString(s), key);
  }
}
