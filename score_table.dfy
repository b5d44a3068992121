/** The `completedCases` record: case id -> latest score. A JavaScript object keeps
    its string keys in insertion order, so it is modelled as a list of entries with
    distinct keys; `Object.values` reads the scores in that order. */
module ScoreTable {
  import opened Types

  datatype Entry = Entry(caseId: string, score: int)

  type Table = seq<Entry>

  /** No key appears twice: the shape of every JavaScript object. */
  ghost predicate UniqueKeys(t: Table) {
    forall i, j :: 0 <= i < j < |t| ==> t[i].caseId != t[j].caseId
  }

  /** `Object.keys(t)`. */
  function Keys(t: Table): (r: seq<string>)
    ensures |r| == |t|
    ensures forall i :: 0 <= i < |t| ==> r[i] == t[i].caseId
  {
    seq(|t|, i requires 0 <= i < |t| => t[i].caseId)
  }

  predicate HasKey(t: Table, id: string) {
    id in Keys(t)
  }

  /** `t[id]`: the stored score, or `undefined` (None). */
  function Get(t: Table, id: string): (r: Option<int>)
    ensures r.Some? <==> HasKey(t, id)
    ensures r.Some? ==> exists i :: 0 <= i < |t| && t[i] == Entry(id, r.value)
    decreases |t|
  {
    if t == [] then None
    else if t[0].caseId == id then Some(t[0].score)
    else
      var r := Get(t[1..], id);
      assert forall i :: 1 <= i < |t| ==> t[i] == t[1..][i - 1];
      assert HasKey(t[1..], id) ==> HasKey(t, id);
      r
  }

  /** `{ ...t, [id]: score }`: an existing key keeps its position and takes the new
      score; a new key is appended. */
  function Put(t: Table, id: string, score: int): (r: Table)
    decreases |t|
  {
    if t == [] then [Entry(id, score)]
    else if t[0].caseId == id then [Entry(id, score)] + t[1..]
    else [t[0]] + Put(t[1..], id, score)
  }

  /** JavaScript truthiness of `t[id]`: a score is stored and it is not 0. */
  predicate TruthyScore(t: Table, id: string) {
    Get(t, id).Some? && Get(t, id).value != 0
  }

  /** `Object.values(t)`. */
  function Values(t: Table): (r: seq<int>)
    ensures |r| == |t|
    ensures forall i :: 0 <= i < |t| ==> r[i] == t[i].score
  {
    seq(|t|, i requires 0 <= i < |t| => t[i].score)
  }

  /** `xs.reduce((a, b) => a + b, 0)`. */
  function Sum(xs: seq<int>): int
    decreases |xs|
  {
    if xs == [] then 0 else xs[0] + Sum(xs[1..])
  }

  /** After `Put`, the key maps to the new score, overwriting any earlier one, and
      every other key keeps its score. */
  lemma {:induction false} PutGet(t: Table, id: string, score: int, other: string)
    ensures Get(Put(t, id, score), id) == Some(score)
    ensures other != id ==> Get(Put(t, id, score), other) == Get(t, other)
    decreases |t|
  {
    if t != [] && t[0].caseId != id {
      PutGet(t[1..], id, score, other);
    }
  }

  /** `Put` leaves the key list alone when the key exists and appends it otherwise. */
  lemma {:induction false} PutKeys(t: Table, id: string, score: int)
    ensures Keys(Put(t, id, score)) == if HasKey(t, id) then Keys(t) else Keys(t) + [id]
    decreases |t|
  {
    if t == [] {
    } else if t[0].caseId == id {
      assert Keys(Put(t, id, score)) == Keys(t);
    } else {
      PutKeys(t[1..], id, score);
      assert Keys(t) == [t[0].caseId] + Keys(t[1..]);
      assert Keys(Put(t, id, score)) == [t[0].caseId] + Keys(Put(t[1..], id, score));
    }
  }

  /** `Put` adds an entry exactly when the key is new, and keeps keys distinct. */
  lemma PutShape(t: Table, id: string, score: int)
    requires UniqueKeys(t)
    ensures |Put(t, id, score)| == if HasKey(t, id) then |t| else |t| + 1
    ensures UniqueKeys(Put(t, id, score))
    ensures forall k :: HasKey(Put(t, id, score), k) <==> HasKey(t, k) || k == id
  {
    PutKeys(t, id, score);
    var r := Put(t, id, score);
    assert |r| == |Keys(r)|;
    forall i, j | 0 <= i < j < |r| ensures r[i].caseId != r[j].caseId {
      assert Keys(r)[i] == r[i].caseId && Keys(r)[j] == r[j].caseId;
    }
  }

  /** The sum of the scores after `Put` replaces the old score of `id` (if any) by
      the new one. */
  lemma {:induction false} SumPut(t: Table, id: string, score: int)
    requires UniqueKeys(t)
    ensures Sum(Values(Put(t, id, score)))
            == Sum(Values(t)) - (if HasKey(t, id) then Get(t, id).value else 0) + score
    decreases |t|
  {
    var r := Put(t, id, score);
    if t == [] {
      assert Values(r) == [score];
    } else if t[0].caseId == id {
      assert Values(r) == [score] + Values(t[1..]);
      assert Values(t) == [t[0].score] + Values(t[1..]);
    } else {
      var tail := t[1..];
      SumPut(tail, id, score);
      assert Values(r) == [t[0].score] + Values(Put(tail, id, score));
      assert Values(t) == [t[0].score] + Values(tail);
      assert Keys(t) == [t[0].caseId] + Keys(tail);
    }
  }
}
