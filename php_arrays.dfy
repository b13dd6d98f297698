/**
 * The PHP semantics the media record relies on: truthiness of strings,
 * `array_unique` and `array_filter` (without a callback) on lists of strings.
 */
module PhpArrays {

  /** A string PHP treats as false: the empty string and "0". */
  predicate Falsy(s: string)
  {
    s == "" || s == "0"
  }

  predicate NoDuplicates(s: seq<string>)
  {
    forall i, j :: 0 <= i < j < |s| ==> s[i] != s[j]
  }

  /**
   * Every value of `r` appears in `s` in the order of its first occurrence:
   * wherever a later value of `r` occurs in `s`, an earlier one has already occurred.
   */
  predicate FirstOccurrenceOrder(r: seq<string>, s: seq<string>)
  {
    forall i, j, k :: 0 <= i < j < |r| && 0 <= k < |s| && s[k] == r[j] ==> r[i] in s[..k]
  }

  /** `array_unique`: the first occurrence of each value is kept, later ones are dropped. */
  function Unique(s: seq<string>): (r: seq<string>)
    ensures forall x :: x in r <==> x in s
    ensures NoDuplicates(r)
  {
    if s == [] then []
    else
      var u := Unique(s[..|s| - 1]);
      var x := s[|s| - 1];
      assert forall y :: y in s <==> y in s[..|s| - 1] || y == x by {
        assert s == s[..|s| - 1] + [x];
      }
      if x in u then u else u + [x]
  }

  /** `array_unique` keeps the values in the order in which they first occur. */
  lemma {:induction false} UniqueOrder(s: seq<string>)
    ensures FirstOccurrenceOrder(Unique(s), s)
  {
    if s != [] {
      var init, x := s[..|s| - 1], s[|s| - 1];
      var u, r := Unique(init), Unique(s);
      UniqueOrder(init);
      forall i, j, k | 0 <= i < j < |r| && 0 <= k < |s| && s[k] == r[j]
        ensures r[i] in s[..k]
      {
        assert s[..k] == init[..k] || k == |s| - 1;
        if k < |s| - 1 {
          // r[j] occurs in init, so it was not the value appended last
          assert init[k] == r[j] && r[j] in u;
          assert j < |u| && r[i] == u[i] && r[j] == u[j];
          assert r[i] in init[..k];
        } else if j < |u| {
          // an earlier occurrence of r[j] exists in init
          var k' :| 0 <= k' < |init| && init[k'] == r[j];
          assert r[i] in init[..k'];
          assert init[..k'] <= s[..k];
        } else {
          assert r[i] in u;
          assert s[..k] == init;
        }
      }
    }
  }

  /** A list without duplicates is left as it is: `array_unique` is idempotent. */
  lemma {:induction false} UniqueOfDistinct(s: seq<string>)
    requires NoDuplicates(s)
    ensures Unique(s) == s
  {
    if s != [] {
      var init := s[..|s| - 1];
      UniqueOfDistinct(init);
      assert s[|s| - 1] !in init;
      assert init + [s[|s| - 1]] == s;
    }
  }

  /** `array_filter` without a callback: the falsy values are dropped, the others kept in order. */
  function DropFalsy(s: seq<string>): (r: seq<string>)
    ensures forall x :: x in r <==> x in s && !Falsy(x)
  {
    if s == [] then []
    else
      var t := DropFalsy(s[..|s| - 1]);
      var x := s[|s| - 1];
      assert forall y :: y in s <==> y in s[..|s| - 1] || y == x by {
        assert s == s[..|s| - 1] + [x];
      }
      if Falsy(x) then t else t + [x]
  }

  /** Dropping values keeps a list free of duplicates and in first-occurrence order. */
  lemma {:induction false} DropFalsyKeeps(u: seq<string>, s: seq<string>)
    requires NoDuplicates(u) && FirstOccurrenceOrder(u, s)
    ensures NoDuplicates(DropFalsy(u)) && FirstOccurrenceOrder(DropFalsy(u), s)
  {
    if u != [] {
      var init, x := u[..|u| - 1], u[|u| - 1];
      assert FirstOccurrenceOrder(init, s) by {
        forall i, j, k | 0 <= i < j < |init| && 0 <= k < |s| && s[k] == init[j]
          ensures init[i] in s[..k]
        {
          assert u[i] == init[i] && u[j] == init[j];
        }
      }
      DropFalsyKeeps(init, s);
      var t := DropFalsy(init);
      if !Falsy(x) {
        var r := DropFalsy(u);
        assert r == t + [x];
        assert x !in init;
        forall i, j | 0 <= i < j < |r| ensures r[i] != r[j] {
          if j == |t| {
            assert r[i] in t;
          }
        }
        forall i, j, k | 0 <= i < j < |r| && 0 <= k < |s| && s[k] == r[j]
          ensures r[i] in s[..k]
        {
          if j == |t| {
            assert r[i] in t;
            var m :| 0 <= m < |init| && init[m] == r[i];
            assert u[m] == r[i] && u[|u| - 1] == x;
          }
        }
      }
    }
  }
}
