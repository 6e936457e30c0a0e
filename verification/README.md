# Annotation store of the answer-review tool

The review tool shows a reviewer each question of a split with one model's
prediction and the ground-truth answer. It records a "Yes"/"No" judgment per
question and per model in a line-delimited JSON file, one record per
question index. `update_json` stores one judgment. It loads the file; a
missing file counts as no records. It pads the record list with empty
records `{}` until the question's index exists. It makes sure the record has
a `human_eval` field. It then writes the model's judgment into that field.
If the field holds something other than an object, it is discarded and
replaced by `{model: response}`. Finally the whole file is rewritten, one
record per line, in index order.

This project models that operation in Dafny:

- `json.dfy`, module `Json`: a JSON value (`Value`). `Obj?` is the
  `isinstance(..., dict)` test of the source.
- `annotation_store.dfy`, module `AnnotationStore`:
  - A record is a `map<string, Value>`.
  - The file is `StoreFile`, either `Missing` or `Lines(records)`.
  - `UpdateJson` is the imperative operation, with the padding loop. It
    returns the records written back.
  - It is proved equal to the specification function `Upserted`, which is
    built from `Densified` (padding) and `Judged` (the write into one
    record).
  - The lemmas state what one update does. They also state what a review
    session does: a series of load/update/rewrite cycles, given by
    `Persisted` and `Replayed`.

The source never checks `response` itself. Its values come only from the
form's radio options, and the empty option is never submitted. So
`UpdateJson` requires `response` to be "Yes" or "No". The code has no
rejection path for other values, and neither does the model.

## Model

| member | source | states |
|---|---|---|
| AnnotationStore.UpdateJson | app.py:15-39 | the records written back are exactly the loaded records (none for a missing file) densified to the question's index, with the judgment written into that question's record |
| AnnotationStore.Judged | app.py:27-34 | the result's `human_eval` is an object mapping `model` to `response`; other top-level fields are kept; an existing object keeps every other model's entry; a missing or non-object `human_eval` ends up holding only `model` |
| Json.Singleton | app.py:34 | the replacement value is an object whose only key is `model` |
| AnnotationStore.UpsertedLength | app.py:22-24 | after an update the list has length exactly `max(old length, index + 1)` |
| AnnotationStore.UpsertedLeavesOthers | app.py:22-34 | padding records are `{}`, and every record other than the target is unchanged |
| AnnotationStore.UpsertedAt | app.py:22-34 | position by position, an update changes only the target record; every other position holds its loaded record or `{}` |
| AnnotationStore.UpsertedRecordsJudgment | app.py:27-34 | afterwards the target record's `human_eval` is an object in which `model` maps to `response` |
| AnnotationStore.UpsertedKeepsOtherModels | app.py:30-31 | when `human_eval` was already an object, another model's entry is present afterwards iff it was before, with the same value |
| AnnotationStore.UpsertedReplacesMalformed | app.py:32-34 | a non-object `human_eval` is discarded and becomes exactly `{model: response}` |
| AnnotationStore.UpsertedKeepsOtherFields | app.py:27-34 | every other top-level field of the target record is preserved |
| AnnotationStore.UpsertedLastWriteWins | app.py:15-39 | a second update of the same question and model gives the same list as the second update alone |
| AnnotationStore.UpsertedIdempotent | app.py:15-39 | repeating an update leaves the list unchanged |
| AnnotationStore.JudgedCommute | app.py:27-34 | judgments of two different models can be written into one record in either order |
| AnnotationStore.UpsertedCommute | app.py:15-39 | updates of different (question, model) pairs give the same list in either order |
| AnnotationStore.UpsertedFromMissingFile | app.py:16-34 | from a missing file the result is `index` empty records followed by `{"human_eval": {model: response}}` |
| AnnotationStore.SessionRoundTrip | app.py:15-39 | loading the file after a series of updates, each a full load/update/rewrite, gives exactly the records the same updates build in memory |
| AnnotationStore.SessionCoversIndices | app.py:22-24 | after a series of updates the list never shrinks and covers every question index updated |
| AnnotationStore.UpsertedKeepsHeld | app.py:22-34 | an update of a different (question, model) pair keeps a recorded judgment |
| AnnotationStore.ReplayedKeepsHeld | app.py:22-34 | updates that never touch a (question, model) pair keep its recorded judgment |
| AnnotationStore.SessionKeepsLatest | app.py:15-39 | after a series of updates each updated (question, model) pair holds the last response submitted for it |

## Left out

- File I/O and JSON parsing and serialisation (`open`, `json.loads`,
  `json.dumps`, app.py:17-18 and app.py:37-39). The file is the abstract
  `StoreFile`. The rewrite is the returned sequence of records, in index
  order, one per line. A line that fails to parse raises a library
  exception, which is not modelled.
- A line holding a JSON value that is not an object. Records are modelled as
  objects only. At the updated index the source would raise a `TypeError`;
  elsewhere such a line would be written back unchanged.
- Key order inside a record. Python keeps insertion order, so a new
  `human_eval` key is serialised last. Dafny maps are unordered, so only
  the content of each record is modelled.
- JSON numbers. `Num(literal)` stands for a number as it was loaded, not
  for the text of the rewritten line: `json.loads` turns `1e5` into the
  float 100000.0, which `json.dumps` writes back as `100000.0`, and `1.50`
  comes back as `1.5`. No floating point is modelled.
- AnnotationStore.SessionRoundTrip: shows only that each call loads the
  records the previous call wrote. That stored data is recoverable in the
  source rests on `json.loads(json.dumps(r))` giving back each record
  (app.py:18, app.py:39). The model assumes this step and does not prove it.
- Aliasing between records. Every record comes from its own `json.loads`
  call or its own `{}` literal, so no two list entries share a dict. The
  model therefore treats records as values.
- The Streamlit user interface in `main` (app.py:42-90): the sidebar, the
  widgets, the per-session `st.session_state` cache and the completion
  message. It is presentation code tied to the framework. Its one link to
  the store is the guard at app.py:82-85, which is reflected in the
  requirement on `response`.
- Reading the split's CSV with pandas (app.py:54, app.py:61-64). It is a
  foreign library read with no logic of its own.
- Concurrent writers. Two writers rewriting the whole file can lose each
  other's update. The source assumes a single writer, and the model has one
  writer too.
