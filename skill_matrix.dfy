/**
 * `normalize_columns(data)` of app/ui/views/analysis/skill_matrix_section.py: the
 * skill-matrix columns padded with "" to the length of the longest one, so that they
 * form a rectangular table.
 */
module SkillMatrix {
  import opened Wrappers

  /** A dict of lists, as its items in insertion order. */
  type Columns = seq<(string, seq<string>)>

  /** `max()` over the lengths of an empty dict's values. */
  const EmptyMax := Error(ValueError, "max() arg is an empty sequence")

  /** `max(len(v) for v in data.values())`. */
  function MaxLen(data: Columns): (m: nat)
    requires data != []
    ensures forall i :: 0 <= i < |data| ==> |data[i].1| <= m
    ensures exists i :: 0 <= i < |data| && |data[i].1| == m
  {
    if |data| == 1 then |data[0].1|
    else
      var rest := MaxLen(data[1..]);
      assert forall i :: 1 <= i < |data| ==> data[i] == data[1..][i - 1];
      if |data[0].1| >= rest then |data[0].1| else rest
  }

  /** `v + [""] * (n - len(v))`. */
  function Pad(v: seq<string>, n: nat): seq<string>
    requires |v| <= n
  {
    v + seq(n - |v|, _ => "")
  }

  /** `col` is `v` followed only by "" entries. */
  predicate PaddedFrom(v: seq<string>, col: seq<string>) {
    |v| <= |col| && col[..|v|] == v && forall j :: |v| <= j < |col| ==> col[j] == ""
  }

  function NormalizeColumns(data: Columns): (r: Result<Columns>)
    ensures r.Err? <==> data == []
    ensures r.Err? ==> r.error == EmptyMax
  {
    if data == [] then Err(EmptyMax)
    else
      var m := MaxLen(data);
      Ok(seq(|data|, i requires 0 <= i < |data| => (data[i].0, Pad(data[i].1, m))))
  }

  /**
   * The same keys in the same order; every column is its input list padded with "";
   * all columns have one length, and the longest input column is unchanged, so that
   * length is the longest input length.
   */
  lemma NormalizeColumnsShape(data: Columns)
    requires data != []
    ensures var c := NormalizeColumns(data).value;
      && |c| == |data|
      && (forall i :: 0 <= i < |data| ==> c[i].0 == data[i].0 && PaddedFrom(data[i].1, c[i].1))
      && (forall i :: 0 <= i < |data| ==> |c[i].1| == MaxLen(data))
      && (exists i :: 0 <= i < |data| && c[i].1 == data[i].1)
  {
    var c := NormalizeColumns(data).value;
    var m := MaxLen(data);
    forall i | 0 <= i < |data|
      ensures c[i].0 == data[i].0 && PaddedFrom(data[i].1, c[i].1) && |c[i].1| == m
    {
      assert c[i].1 == Pad(data[i].1, m);
    }
    var k :| 0 <= k < |data| && |data[k].1| == m;
    assert c[k].1 == Pad(data[k].1, m);
    assert c[k].1 == data[k].1;
  }

  /** Columns that all have one length are left as they are. */
  lemma UniformUnchanged(c: Columns, m: nat)
    requires c != [] && forall i :: 0 <= i < |c| ==> |c[i].1| == m
    ensures NormalizeColumns(c) == Ok(c)
  {
    assert MaxLen(c) == m;
    var d := NormalizeColumns(c).value;
    assert |d| == |c|;
    forall i | 0 <= i < |c| ensures d[i] == c[i] {
      assert d[i] == (c[i].0, Pad(c[i].1, m));
      assert seq(m - |c[i].1|, _ => "") == [];
      assert Pad(c[i].1, m) == c[i].1;
    }
    assert d == c;
  }

  /** Normalizing an already normalized dict changes nothing. */
  lemma {:induction false} NormalizeColumnsIdempotent(data: Columns)
    requires data != []
    ensures NormalizeColumns(NormalizeColumns(data).value) == NormalizeColumns(data)
  {
    var c := NormalizeColumns(data).value;
    var m := MaxLen(data);
    forall i | 0 <= i < |c| ensures |c[i].1| == m {
      assert c[i].1 == Pad(data[i].1, m);
    }
    UniformUnchanged(c, m);
  }
}
