/**
 * A vendor mode table: the items of a Python dict literal that maps wire
 * codes to mode names, in insertion order.  The three operations the
 * integration applies to such a dict are modelled as folds over the items:
 * `dict(items)`, `list(d.values())` and the inverting comprehension
 * `{v: k for k, v in d.items()}`.
 */
module ModeTable {

  type Table = seq<(int, string)>

  /** The fallback name of `d.get(code, "Unknown")`. */
  const Unknown: string := "Unknown"

  predicate DistinctCodes(t: Table) {
    forall i, j :: 0 <= i < j < |t| ==> t[i].0 != t[j].0
  }

  predicate DistinctNames(t: Table) {
    forall i, j :: 0 <= i < j < |t| ==> t[i].1 != t[j].1
  }

  /** The codes of the table, as a set. */
  ghost function Codes(t: Table): set<int> {
    set i | 0 <= i < |t| :: t[i].0
  }

  /** The names of the table, as a set. */
  ghost function NameSet(t: Table): set<string> {
    set i | 0 <= i < |t| :: t[i].1
  }

  /** `dict(items)`: a later item overrides an earlier one with the same code. */
  function ToMap(t: Table): map<int, string> {
    if t == [] then map[] else ToMap(t[..|t| - 1])[t[|t| - 1].0 := t[|t| - 1].1]
  }

  /** `list(d.values())` of a table whose codes are distinct. */
  function Names(t: Table): seq<string> {
    if t == [] then [] else Names(t[..|t| - 1]) + [t[|t| - 1].1]
  }

  /** `{v: k for k, v in d.items()}`: a later item overrides an earlier one with the same name. */
  function Inverse(t: Table): map<string, int> {
    if t == [] then map[] else Inverse(t[..|t| - 1])[t[|t| - 1].1 := t[|t| - 1].0]
  }

  /** `d.get(code, default)`. */
  function Get(t: Table, code: int, default: string): string {
    var m := ToMap(t);
    if code in m then m[code] else default
  }

  lemma {:induction false} ToMapKeys(t: Table)
    ensures ToMap(t).Keys == Codes(t)
  {
    if t != [] {
      var p := t[..|t| - 1];
      ToMapKeys(p);
      assert Codes(t) == Codes(p) + {t[|t| - 1].0} by {
        forall c | c in Codes(t) ensures c in Codes(p) + {t[|t| - 1].0} {
          var i :| 0 <= i < |t| && t[i].0 == c;
          if i < |t| - 1 { assert p[i] == t[i]; }
        }
        forall c | c in Codes(p) ensures c in Codes(t) {
          var i :| 0 <= i < |p| && p[i].0 == c;
          assert t[i] == p[i];
        }
      }
    }
  }

  lemma {:induction false} NamesElements(t: Table)
    ensures |Names(t)| == |t|
    ensures forall i :: 0 <= i < |t| ==> Names(t)[i] == t[i].1
  {
    if t != [] {
      var p := t[..|t| - 1];
      NamesElements(p);
      forall i | 0 <= i < |t| ensures Names(t)[i] == t[i].1 {
        if i < |p| { assert p[i] == t[i]; }
      }
    }
  }

  lemma {:induction false} InverseKeys(t: Table)
    ensures Inverse(t).Keys == NameSet(t)
  {
    if t != [] {
      var p := t[..|t| - 1];
      InverseKeys(p);
      assert NameSet(t) == NameSet(p) + {t[|t| - 1].1} by {
        forall n | n in NameSet(t) ensures n in NameSet(p) + {t[|t| - 1].1} {
          var i :| 0 <= i < |t| && t[i].1 == n;
          if i < |t| - 1 { assert p[i] == t[i]; }
        }
        forall n | n in NameSet(p) ensures n in NameSet(t) {
          var i :| 0 <= i < |p| && p[i].1 == n;
          assert t[i] == p[i];
        }
      }
    }
  }

  /** With distinct codes, the dict sends every item's code to that item's name. */
  lemma {:induction false} ToMapAt(t: Table, i: int)
    requires DistinctCodes(t) && 0 <= i < |t|
    ensures t[i].0 in ToMap(t) && ToMap(t)[t[i].0] == t[i].1
  {
    var p := t[..|t| - 1];
    if i < |t| - 1 {
      assert p[i] == t[i];
      ToMapAt(p, i);
    }
  }

  /** With distinct names, the inverted dict sends every item's name to that item's code. */
  lemma {:induction false} InverseAt(t: Table, i: int)
    requires DistinctNames(t) && 0 <= i < |t|
    ensures t[i].1 in Inverse(t) && Inverse(t)[t[i].1] == t[i].0
  {
    var p := t[..|t| - 1];
    if i < |t| - 1 {
      assert p[i] == t[i];
      InverseAt(p, i);
    }
  }

  /** Membership in `list(d.values())` is membership in the inverted dict. */
  lemma NamesAreInverseKeys(t: Table)
    ensures forall n :: n in Names(t) <==> n in Inverse(t)
  {
    NamesElements(t);
    InverseKeys(t);
    forall n ensures n in Names(t) <==> n in NameSet(t) {
      if n in Names(t) {
        var i :| 0 <= i < |Names(t)| && Names(t)[i] == n;
        assert t[i].1 == n;
      }
      if n in NameSet(t) {
        var i :| 0 <= i < |t| && t[i].1 == n;
        assert Names(t)[i] == n;
      }
    }
  }

  /**
   * A table with distinct codes and distinct names round-trips both ways:
   * `table[inverse[n]] == n` for every name and `inverse[table[c]] == c` for
   * every code, and the inverse is defined on exactly the listed names.
   */
  lemma RoundTrip(t: Table)
    requires DistinctCodes(t) && DistinctNames(t)
    ensures forall n :: n in Names(t) <==> n in Inverse(t)
    ensures forall n :: n in Inverse(t) ==> Inverse(t)[n] in ToMap(t) && ToMap(t)[Inverse(t)[n]] == n
    ensures forall c :: c in ToMap(t) ==> ToMap(t)[c] in Inverse(t) && Inverse(t)[ToMap(t)[c]] == c
  {
    NamesAreInverseKeys(t);
    InverseKeys(t);
    ToMapKeys(t);
    forall n | n in Inverse(t) ensures Inverse(t)[n] in ToMap(t) && ToMap(t)[Inverse(t)[n]] == n {
      var i :| 0 <= i < |t| && t[i].1 == n;
      InverseAt(t, i);
      ToMapAt(t, i);
    }
    forall c | c in ToMap(t) ensures ToMap(t)[c] in Inverse(t) && Inverse(t)[ToMap(t)[c]] == c {
      var i :| 0 <= i < |t| && t[i].0 == c;
      ToMapAt(t, i);
      InverseAt(t, i);
    }
  }
}
