/**
 The annotation store of the review tool: one line-delimited file per split
 in which line i is the JSON record of the human judgments collected for
 question i. `UpdateJson` is the store's one operation: load the file,
 extend the record list with empty records until the question's index
 exists, record the judgment of one model for that question, and rewrite
 the whole file.
 */
module AnnotationStore {
  import opened Json

  /** One line of the annotation file: a JSON object. */
  type Record = map<string, Value>

  /** The field of a record holding its per-model judgments. */
  const HumanEval: string := "human_eval"

  /** The answers the review form can submit; its empty choice is never submitted. */
  predicate IsJudgment(response: string)
  {
    response == "Yes" || response == "No"
  }

  /** The annotation file as the store finds it. */
  datatype StoreFile =
    | Missing                        // no file for this split yet
    | Lines(records: seq<Record>)    // one parsed record per line, in line order

  /** The records a load yields: a missing file means nothing is annotated yet. */
  function Load(file: StoreFile): seq<Record>
  {
    match file
    case Missing => []
    case Lines(records) => records
  }

  function Max(a: int, b: int): int
  {
    if a < b then b else a
  }

  /** The empty record `{}` used to fill gaps in the record list. */
  const Empty: Record := map[]

  // ---------------------------------------------------------------------
  // Specification of one update
  // ---------------------------------------------------------------------

  /** `data` extended with empty records just far enough for `index` to exist. */
  function Densified(data: seq<Record>, index: nat): seq<Record>
  {
    if index < |data| then data else data + seq(index + 1 - |data|, _ => Empty)
  }

  /** True when `rec` already holds its judgments as an object. */
  predicate HasJudgmentObject(rec: Record)
  {
    HumanEval in rec && rec[HumanEval].Obj?
  }

  /**
   The record `rec` after `model`'s judgment `response` is written into it.
   A missing `human_eval` field starts out as `{}`; one that holds anything
   but an object is discarded and replaced by `{model: response}`.
   */
  function Judged(rec: Record, model: string, response: string): (r: Record)
    ensures HasJudgmentObject(r)
    ensures model in r[HumanEval].fields && r[HumanEval].fields[model] == Str(response)
    ensures r.Keys == rec.Keys + {HumanEval}
    ensures forall k :: k in rec && k != HumanEval ==> r[k] == rec[k]
    ensures HasJudgmentObject(rec) ==>
              && r[HumanEval].fields.Keys == rec[HumanEval].fields.Keys + {model}
              && forall m :: m in rec[HumanEval].fields && m != model ==>
                               r[HumanEval].fields[m] == rec[HumanEval].fields[m]
    ensures !HasJudgmentObject(rec) ==> r[HumanEval].fields.Keys == {model}
  {
    var judgments := if HumanEval in rec then rec[HumanEval] else Obj(map[]);
    match judgments
    case Obj(fields) => rec[HumanEval := Obj(fields[model := Str(response)])]
    case _ => rec[HumanEval := Singleton(model, Str(response))]
  }

  /** The record list after one update of question `index` for `model`. */
  function Upserted(data: seq<Record>, index: nat, model: string, response: string): seq<Record>
  {
    var dense := Densified(data, index);
    dense[index := Judged(dense[index], model, response)]
  }

  // ---------------------------------------------------------------------
  // The operation
  // ---------------------------------------------------------------------

  /**
   Stores `model`'s judgment `response` for question `questionIndex` in the
   annotation file `file` and returns the records written back, one per
   line, in index order.
   */
  method UpdateJson(file: StoreFile, questionIndex: nat, response: string, model: string)
    returns (written: seq<Record>)
    requires IsJudgment(response)
    ensures written == Upserted(Load(file), questionIndex, model, response)
  {
    var data: seq<Record>;
    match file {
      case Missing => data := [];
      case Lines(records) => data := records;
    }
    ghost var loaded := data;

    while |data| <= questionIndex
      invariant |loaded| <= |data| <= Max(|loaded|, questionIndex + 1)
      invariant data[..|loaded|] == loaded
      invariant forall k :: |loaded| <= k < |data| ==> data[k] == Empty
      decreases questionIndex + 1 - |data|
    {
      data := data + [Empty];
    }
    assert data == Densified(loaded, questionIndex) by {
      var dense := Densified(loaded, questionIndex);
      assert |data| == |dense|;
      forall k | 0 <= k < |data| ensures data[k] == dense[k] {
        if k < |loaded| {
          assert data[k] == data[..|loaded|][k];
        }
      }
    }

    var rec := data[questionIndex];
    ghost var before := rec;
    if HumanEval !in rec {
      rec := rec[HumanEval := Obj(map[])];
    }
    match rec[HumanEval] {
      case Obj(judgments) =>
        rec := rec[HumanEval := Obj(judgments[model := Str(response)])];
        assert rec == before[HumanEval := Obj(judgments[model := Str(response)])];
      case _ =>
        rec := rec[HumanEval := Singleton(model, Str(response))];
    }
    assert rec == Judged(before, model, response);
    data := data[questionIndex := rec];

    written := data;
  }

  // ---------------------------------------------------------------------
  // Properties of one update
  // ---------------------------------------------------------------------

  /** The record list grows to exactly `max(old length, index + 1)`. */
  lemma UpsertedLength(data: seq<Record>, index: nat, model: string, response: string)
    ensures |Upserted(data, index, model, response)| == Max(|data|, index + 1)
  {
  }

  /** Records appended as padding are `{}`; every record but the target one is as before. */
  lemma UpsertedLeavesOthers(data: seq<Record>, index: nat, model: string, response: string)
    ensures var r := Upserted(data, index, model, response);
      && (forall k :: 0 <= k < |data| && k != index ==> r[k] == data[k])
      && (forall k :: |data| <= k < |r| && k != index ==> r[k] == Empty)
  {
  }

  /** Afterwards the target record's judgments are an object mapping `model` to `response`. */
  lemma UpsertedRecordsJudgment(data: seq<Record>, index: nat, model: string, response: string)
    ensures var r := Upserted(data, index, model, response);
      && index < |r|
      && HasJudgmentObject(r[index])
      && model in r[index][HumanEval].fields
      && r[index][HumanEval].fields[model] == Str(response)
  {
  }

  /** A judgment for one model never disturbs another model's judgment of the same question. */
  lemma UpsertedKeepsOtherModels(data: seq<Record>, index: nat, model: string, response: string, other: string)
    requires index < |data| && HasJudgmentObject(data[index])
    requires other != model
    ensures var r := Upserted(data, index, model, response);
      && (other in r[index][HumanEval].fields <==> other in data[index][HumanEval].fields)
      && (other in data[index][HumanEval].fields ==>
            r[index][HumanEval].fields[other] == data[index][HumanEval].fields[other])
  {
  }

  /** A `human_eval` value that is not an object is discarded: only the new judgment remains. */
  lemma UpsertedReplacesMalformed(data: seq<Record>, index: nat, model: string, response: string)
    requires index < |data| && HumanEval in data[index] && !data[index][HumanEval].Obj?
    ensures Upserted(data, index, model, response)[index][HumanEval] == Obj(map[model := Str(response)])
  {
  }

  /** The target record's other top-level fields are carried over unchanged. */
  lemma UpsertedKeepsOtherFields(data: seq<Record>, index: nat, model: string, response: string, key: string)
    requires index < |data| && key in data[index] && key != HumanEval
    ensures var r := Upserted(data, index, model, response);
      key in r[index] && r[index][key] == data[index][key]
  {
  }

  /** A second update of the same question and model overrides the first. */
  lemma {:induction false} UpsertedLastWriteWins(data: seq<Record>, index: nat, model: string, first: string, second: string)
    ensures Upserted(Upserted(data, index, model, first), index, model, second)
         == Upserted(data, index, model, second)
  {
    var once := Upserted(data, index, model, first);
    var dense := Densified(data, index);
    assert Densified(once, index) == once;
    var a := Judged(Judged(dense[index], model, first), model, second);
    var b := Judged(dense[index], model, second);
    assert a[HumanEval] == b[HumanEval];
    assert a == b;
  }

  /** Repeating an update changes nothing. */
  lemma UpsertedIdempotent(data: seq<Record>, index: nat, model: string, response: string)
    ensures var once := Upserted(data, index, model, response);
      Upserted(once, index, model, response) == once
  {
    UpsertedLastWriteWins(data, index, model, response, response);
  }

  /** The record at position `k` of `data` once padded, `{}` past its end. */
  function RecordAt(data: seq<Record>, k: nat): Record
  {
    if k < |data| then data[k] else Empty
  }

  /** Position by position: only the target record changes, every other one is as loaded or `{}`. */
  lemma UpsertedAt(data: seq<Record>, index: nat, model: string, response: string, k: nat)
    requires k < Max(|data|, index + 1)
    ensures var r := Upserted(data, index, model, response);
      k < |r| && r[k] == if k == index then Judged(RecordAt(data, k), model, response) else RecordAt(data, k)
  {
  }

  /** Judgments of two different models can be written into a record in either order. */
  lemma JudgedCommute(rec: Record, m: string, v: string, n: string, w: string)
    requires m != n
    ensures Judged(Judged(rec, m, v), n, w) == Judged(Judged(rec, n, w), m, v)
  {
    var x := Judged(Judged(rec, m, v), n, w);
    var y := Judged(Judged(rec, n, w), m, v);
    assert x[HumanEval].fields == y[HumanEval].fields;
    assert x[HumanEval] == y[HumanEval];
  }

  /** Updates of different (question, model) pairs can be applied in either order. */
  lemma {:induction false} UpsertedCommute(data: seq<Record>, i: nat, m: string, v: string, j: nat, n: string, w: string)
    requires i != j || m != n
    ensures Upserted(Upserted(data, i, m, v), j, n, w) == Upserted(Upserted(data, j, n, w), i, m, v)
  {
    var a := Upserted(data, i, m, v);
    var b := Upserted(data, j, n, w);
    var ab := Upserted(a, j, n, w);
    var ba := Upserted(b, i, m, v);
    UpsertedLength(data, i, m, v);
    UpsertedLength(data, j, n, w);
    UpsertedLength(a, j, n, w);
    UpsertedLength(b, i, m, v);
    forall k | 0 <= k < |ab| ensures k < |ba| && ab[k] == ba[k] {
      UpsertedAt(a, j, n, w, k);
      UpsertedAt(b, i, m, v, k);
      if k < |a| { UpsertedAt(data, i, m, v, k); }
      if k < |b| { UpsertedAt(data, j, n, w, k); }
      if k == i && k == j {
        JudgedCommute(RecordAt(data, k), m, v, n, w);
      }
    }
  }

  /** From a missing file, an update yields `index` empty records followed by the judgment. */
  lemma UpsertedFromMissingFile(index: nat, model: string, response: string)
    ensures Upserted(Load(Missing), index, model, response)
         == seq(index, _ => Empty) + [map[HumanEval := Obj(map[model := Str(response)])]]
  {
  }

  // ---------------------------------------------------------------------
  // A review session: a series of updates
  // ---------------------------------------------------------------------

  /** One judgment submitted from the review form. */
  datatype Submission = Submission(index: nat, model: string, response: string)

  /** The record list after the submissions are applied in order, in memory. */
  function Replayed(data: seq<Record>, subs: seq<Submission>): seq<Record>
    decreases |subs|
  {
    if subs == [] then data
    else Replayed(Upserted(data, subs[0].index, subs[0].model, subs[0].response), subs[1..])
  }

  /** The annotation file after each submission went through its own load, update and rewrite. */
  function Persisted(file: StoreFile, subs: seq<Submission>): StoreFile
    decreases |subs|
  {
    if subs == [] then file
    else Persisted(Lines(Upserted(Load(file), subs[0].index, subs[0].model, subs[0].response)), subs[1..])
  }

  /** Loading the file after a session yields exactly the records the session built in memory. */
  lemma {:induction false} SessionRoundTrip(file: StoreFile, subs: seq<Submission>)
    ensures Load(Persisted(file, subs)) == Replayed(Load(file), subs)
    decreases |subs|
  {
    if subs != [] {
      var s := subs[0];
      SessionRoundTrip(Lines(Upserted(Load(file), s.index, s.model, s.response)), subs[1..]);
    }
  }

  /** After a session the record list is long enough for every question judged in it. */
  lemma {:induction false} SessionCoversIndices(data: seq<Record>, subs: seq<Submission>)
    ensures |Replayed(data, subs)| >= |data|
    ensures forall k :: 0 <= k < |subs| ==> subs[k].index < |Replayed(data, subs)|
    decreases |subs|
  {
    if subs != [] {
      var s := subs[0];
      var next := Upserted(data, s.index, s.model, s.response);
      UpsertedLength(data, s.index, s.model, s.response);
      SessionCoversIndices(next, subs[1..]);
      forall k | 0 <= k < |subs| ensures subs[k].index < |Replayed(data, subs)| {
        if k > 0 {
          assert subs[k] == subs[1..][k - 1];
        }
      }
    }
  }

  /** Question `index` of `data` holds judgment `response` for `model`. */
  predicate Holds(data: seq<Record>, index: nat, model: string, response: string)
  {
    && index < |data|
    && HasJudgmentObject(data[index])
    && model in data[index][HumanEval].fields
    && data[index][HumanEval].fields[model] == Str(response)
  }

  /** An update of another (question, model) pair leaves a recorded judgment in place. */
  lemma UpsertedKeepsHeld(data: seq<Record>, index: nat, model: string, response: string, s: Submission)
    requires Holds(data, index, model, response)
    requires s.index != index || s.model != model
    ensures Holds(Upserted(data, s.index, s.model, s.response), index, model, response)
  {
    if s.index == index {
      UpsertedKeepsOtherModels(data, index, s.model, s.response, model);
    }
  }

  /** Submissions for other pairs leave a recorded judgment in place. */
  lemma {:induction false} ReplayedKeepsHeld(data: seq<Record>, subs: seq<Submission>, index: nat, model: string, response: string)
    requires Holds(data, index, model, response)
    requires forall k :: 0 <= k < |subs| ==> subs[k].index != index || subs[k].model != model
    ensures Holds(Replayed(data, subs), index, model, response)
    decreases |subs|
  {
    if subs != [] {
      UpsertedKeepsHeld(data, index, model, response, subs[0]);
      var s := subs[0];
      forall k | 0 <= k < |subs| - 1 ensures subs[1..][k].index != index || subs[1..][k].model != model {
        assert subs[1..][k] == subs[k + 1];
      }
      ReplayedKeepsHeld(Upserted(data, s.index, s.model, s.response), subs[1..], index, model, response);
    }
  }

  /** After a session each judged (question, model) pair holds the last response submitted for it. */
  lemma {:induction false} SessionKeepsLatest(data: seq<Record>, subs: seq<Submission>, k: nat)
    requires k < |subs|
    requires forall j :: k < j < |subs| ==> subs[j].index != subs[k].index || subs[j].model != subs[k].model
    ensures Holds(Replayed(data, subs), subs[k].index, subs[k].model, subs[k].response)
    decreases |subs|
  {
    var s := subs[0];
    var next := Upserted(data, s.index, s.model, s.response);
    if k == 0 {
      UpsertedRecordsJudgment(data, s.index, s.model, s.response);
      forall j | 0 <= j < |subs| - 1
        ensures subs[1..][j].index != s.index || subs[1..][j].model != s.model
      {
        assert subs[1..][j] == subs[j + 1];
      }
      ReplayedKeepsHeld(next, subs[1..], s.index, s.model, s.response);
    } else {
      assert subs[1..][k - 1] == subs[k];
      forall j | k - 1 < j < |subs| - 1
        ensures subs[1..][j].index != subs[1..][k - 1].index || subs[1..][j].model != subs[1..][k - 1].model
      {
        assert subs[1..][j] == subs[j + 1];
      }
      SessionKeepsLatest(next, subs[1..], k - 1);
    }
  }
}
