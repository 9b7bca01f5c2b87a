/**
 * The teacher's style-sample list (App.jsx:9-13, 94-111): a list of
 * `{id, text, required}` records and the counter `nextId` that numbers the
 * next one. The functions here compute the new list from the old one, as the
 * component's updaters do with spread, `filter` and `map`.
 */
module StyleSamples {

  datatype Sample = Sample(id: int, text: string, required: bool)

  /** The list the editor starts with: one required and one optional empty sample. */
  const InitialSamples: seq<Sample> := [Sample(1, "", true), Sample(2, "", false)]

  /** The id the next added sample receives at start. */
  const InitialNextId: int := 3

  predicate DistinctIds(ss: seq<Sample>) {
    forall i, j :: 0 <= i < j < |ss| ==> ss[i].id != ss[j].id
  }

  predicate IdsBelow(ss: seq<Sample>, bound: int) {
    forall i :: 0 <= i < |ss| ==> ss[i].id < bound
  }

  /** The editor's invariant: the list is never empty, ids are pairwise distinct,
      and every id is below the counter, so the next added id is fresh. */
  predicate Valid(ss: seq<Sample>, nextId: int) {
    |ss| >= 1 && DistinctIds(ss) && IdsBelow(ss, nextId)
  }

  lemma InitialValid()
    ensures Valid(InitialSamples, InitialNextId)
  {
  }

  /** `addStyleSample`: a new empty, optional sample numbered `nextId` goes at the end. */
  function Add(ss: seq<Sample>, nextId: int): (r: seq<Sample>)
    ensures |r| == |ss| + 1 && r[..|ss|] == ss
    ensures r[|ss|] == Sample(nextId, "", false)
  {
    ss + [Sample(nextId, "", false)]
  }

  /** Adding keeps the invariant once the counter moves up by one. */
  lemma AddValid(ss: seq<Sample>, nextId: int)
    requires Valid(ss, nextId)
    ensures Valid(Add(ss, nextId), nextId + 1)
  {
    var r := Add(ss, nextId);
    forall i, j | 0 <= i < j < |r| ensures r[i].id != r[j].id {
      if j == |ss| { assert r[i] == ss[i]; }
    }
  }

  /** The samples whose id differs from `id`, in their original order. */
  function WithoutId(ss: seq<Sample>, id: int): (r: seq<Sample>)
    ensures |r| <= |ss|
    ensures forall s :: s in r <==> s in ss && s.id != id
  {
    if ss == [] then []
    else if ss[0].id == id then WithoutId(ss[1..], id)
    else [ss[0]] + WithoutId(ss[1..], id)
  }

  /** Filtering distributes over concatenation, so relative order is kept. */
  lemma {:induction false} WithoutIdAppend(a: seq<Sample>, b: seq<Sample>, id: int)
    ensures WithoutId(a + b, id) == WithoutId(a, id) + WithoutId(b, id)
  {
    if a != [] {
      assert (a + b)[1..] == a[1..] + b;
      WithoutIdAppend(a[1..], b, id);
    } else {
      assert a + b == b;
    }
  }

  /** Filtering out an id nobody has changes nothing. */
  lemma {:induction false} WithoutAbsentId(ss: seq<Sample>, id: int)
    requires forall i :: 0 <= i < |ss| ==> ss[i].id != id
    ensures WithoutId(ss, id) == ss
  {
    if ss != [] {
      WithoutAbsentId(ss[1..], id);
    }
  }

  /** With distinct ids, filtering by one id drops at most one sample. */
  lemma {:induction false} WithoutIdDropsAtMostOne(ss: seq<Sample>, id: int)
    requires DistinctIds(ss)
    ensures |WithoutId(ss, id)| >= |ss| - 1
  {
    if ss != [] {
      if ss[0].id == id {
        WithoutAbsentId(ss[1..], id);
      } else {
        WithoutIdDropsAtMostOne(ss[1..], id);
      }
    }
  }

  /** `removeStyleSample`: with more than one sample, drop those with the given id;
      with a single sample, do nothing. */
  function Remove(ss: seq<Sample>, id: int): (r: seq<Sample>)
    ensures |ss| <= 1 ==> r == ss
    ensures |ss| > 1 ==> forall s :: s in r <==> s in ss && s.id != id
  {
    if |ss| > 1 then WithoutId(ss, id) else ss
  }

  lemma {:induction false} WithoutIdDistinct(ss: seq<Sample>, id: int)
    requires DistinctIds(ss)
    ensures DistinctIds(WithoutId(ss, id))
  {
    if ss != [] {
      WithoutIdDistinct(ss[1..], id);
      if ss[0].id != id {
        var r := WithoutId(ss, id);
        assert r == [ss[0]] + WithoutId(ss[1..], id);
        forall j | 1 <= j < |r| ensures r[0].id != r[j].id {
          assert r[j] in ss[1..];
        }
      }
    }
  }

  /** Removing keeps the invariant; in particular the list never becomes empty,
      which needs the ids to be distinct. */
  lemma RemoveValid(ss: seq<Sample>, nextId: int, id: int)
    requires Valid(ss, nextId)
    ensures Valid(Remove(ss, id), nextId)
  {
    if |ss| > 1 {
      WithoutIdDropsAtMostOne(ss, id);
      WithoutIdDistinct(ss, id);
      var r := WithoutId(ss, id);
      forall i | 0 <= i < |r| ensures r[i].id < nextId {
        assert r[i] in ss;
      }
    }
  }

  /** Without the distinct-ids invariant the guard on the length is not enough:
      two samples sharing an id both go. */
  lemma RemoveNeedsDistinctIds()
    ensures Remove([Sample(1, "", true), Sample(1, "", false)], 1) == []
  {
    var ss := [Sample(1, "", true), Sample(1, "", false)];
    assert ss[1..][1..] == [];
  }

  /** `updateStyleSample`: the sample(s) with the given id get the new text. */
  function Update(ss: seq<Sample>, id: int, text: string): (r: seq<Sample>)
    ensures |r| == |ss|
    ensures forall i :: 0 <= i < |ss| ==>
      r[i].id == ss[i].id && r[i].required == ss[i].required
      && r[i].text == (if ss[i].id == id then text else ss[i].text)
  {
    seq(|ss|, i requires 0 <= i < |ss| => if ss[i].id == id then ss[i].(text := text) else ss[i])
  }

  lemma UpdateValid(ss: seq<Sample>, nextId: int, id: int, text: string)
    requires Valid(ss, nextId)
    ensures Valid(Update(ss, id, text), nextId)
  {
  }

  /** With distinct ids, writing back the old text of a sample undoes an update. */
  lemma UpdateUndo(ss: seq<Sample>, k: nat, text: string)
    requires DistinctIds(ss) && k < |ss|
    ensures Update(Update(ss, ss[k].id, text), ss[k].id, ss[k].text) == ss
  {
    var r := Update(Update(ss, ss[k].id, text), ss[k].id, ss[k].text);
    forall i | 0 <= i < |ss| ensures r[i] == ss[i] {
      if i != k { assert ss[i].id != ss[k].id; }
    }
  }

  /** Step 1 may be left once the first sample has text (App.jsx:521-523). */
  predicate CanLeaveStep1(ss: seq<Sample>)
    requires |ss| >= 1
  {
    ss[0].text != ""
  }

  /** Writing a non-empty text into the first sample opens the way to step 2,
      and clearing it closes it again. */
  lemma UpdateFirstOpensStep1(ss: seq<Sample>, text: string)
    requires |ss| >= 1
    ensures CanLeaveStep1(Update(ss, ss[0].id, text)) <==> text != ""
  {
  }
}
