# MatMethods: the Raman workflow and the VASP task database

This project is a Dafny model of two pieces of MatMethods, written in Python.

- **The Raman spectra workflow** (`get_wf_raman_spectra`). It builds a task graph with these Fireworks, in order:
  - one structure optimisation;
  - one static "phonon" run that computes the normal modes;
  - two static runs per normal mode, displaced by −step and +step;
  - one analysis Firework, which computes the Raman susceptibility tensor from all the displaced runs.
- **The schema operations of `MMVaspDb`**:
  - `build_indexes`: the `create_index` requests it makes on the tasks collection;
  - `reset`: which collections it empties, and the task-id counter it recreates;
  - `insert_gridfs`: what it stores and the compression tag it returns;
  - `get_band_structure`: its lookup path, up to deserialisation.

The project has three files:

- `common.dfy`, module `Common`: `Option`, `Result` and two sequence-regrouping lemmas.
- `raman.dfy`, module `Raman`:
  - Each Firework is a record of the arguments its constructor receives (`Optimize`, `Leps`, `RamanAnalysis`).
  - A parent is referenced by its position in the workflow's node list.
  - A `Structure` is its site count and its reduced formula.
  - The method `GetWfRamanSpectra` builds the node list by appending, in the nested mode/displacement loop. It is proved equal to the function `RamanWorkflow`, and the graph's properties are lemmas about that function.
- `database.dfy`, module `Database`:
  - The database is a map from collection names to the sequence of documents each holds. A GridFS bucket `x` is the two collections `x.files` and `x.chunks`.
  - The tasks collection's index state is the log of `create_index` requests made on it.
  - `MMVaspDb` is a class with the fields `collection`, `db` and `indexLog`.
  - Its methods are proved equal to functions of the old state: `IndexPlan`, `ResetStore` and `PutFile`. The properties are lemmas about those functions.

## Model

| member | source | states |
|---|---|---|
| Raman.ResolveModes | matmethods/vasp/workflows/base/raman.py:44 | a missing or empty mode list becomes exactly 0, 1, …, 3N−1 (N = number of sites); a non-empty list is kept as given, in order; the result is empty iff N = 0 and no modes were given |
| Raman.GetWfRamanSpectra | matmethods/vasp/workflows/base/raman.py:23-75 | the nested loop over modes and displacements, with the appends, builds exactly the workflow `RamanWorkflow` (node list and name); `modes`, `step_size`, `vasp_cmd` and `db_file` default to None, 0.005, "vasp" and None, as in the source |
| Raman.WorkflowSize | matmethods/vasp/workflows/base/raman.py:50-72 | the workflow has 2·\|modes\| + 3 nodes, counting the resolved mode list |
| Raman.DefaultWorkflowSize | matmethods/vasp/workflows/base/raman.py:44-72 | without a mode list, a structure of N sites gives 6N + 3 nodes |
| Raman.WorkflowHead | matmethods/vasp/workflows/base/raman.py:45-59 | node 0 is the optimisation, with MPRelaxSet(force_gamma = true), ediffg −0.05 and no parents; node 1 is the phonon Leps run, with no mode or displacement and node 0 as its only parent |
| Raman.ModeNodesAt | matmethods/vasp/workflows/base/raman.py:64-66 | the inner loop appends one node per displacement; node j is the Leps run at mode m with displacement j |
| Raman.DisplacedNodesLength | matmethods/vasp/workflows/base/raman.py:63-66 | with two displacements, the nested loop appends 2·\|modes\| nodes |
| Raman.DisplacedNodeAt | matmethods/vasp/workflows/base/raman.py:63-66 | in the displaced block, position 2i + j holds mode modes[i] at displacement j |
| Raman.WorkflowDisplaced | matmethods/vasp/workflows/base/raman.py:48-67 | node 2 + 2i + j is a phonon Leps run at mode modes[i]; its displacement is −step for j = 0 and +step for j = 1; its only parent is the phonon run |
| Raman.WorkflowAnalysis | matmethods/vasp/workflows/base/raman.py:70-75 | the last node runs the Raman analysis and is named formula + "-raman analysis"; the workflow is named formula + ":raman spectra"; the analysis parents are exactly positions 2 … 2·\|modes\|+1, in order; a node is among them iff it is a displaced Leps run |
| Raman.AnalysisParentless | matmethods/vasp/workflows/base/raman.py:44-70 | the analysis node has no parents iff the structure has no sites and the mode list is missing or empty |
| Raman.WorkflowAcyclic | matmethods/vasp/workflows/base/raman.py:53-72 | every parent reference is a position smaller than the node's own, so the graph is acyclic and every edge names a node of the workflow |
| Database.ResolveIndexFields | matmethods/vasp/database.py:47-48 | a missing or empty `indexes` gives the four default fields, in order; otherwise the given list; never empty |
| Database.FindFirst | matmethods/vasp/database.py:83-84 | the position of the first matching document, if there is one; otherwise no document matches |
| Database.SingleIndexesAt | matmethods/vasp/database.py:51-52 | the single-field loop requests one index per field; request k is the ascending, non-unique index on fields[k] |
| Database.CompoundPlan | matmethods/vasp/database.py:54-62 | the formula loop requests four compound indexes in this order: formula_pretty with output.energy, formula_pretty with output.energy_per_atom, formula_anonymous with output.energy, formula_anonymous with output.energy_per_atom; each is (formula ASC, energy DESC, completed_at DESC) |
| Database.IndexPlanSingles | matmethods/vasp/database.py:47-52 | the first request is the unique ascending `task_id` index; request 1 + k is the ascending, non-unique index on field k |
| Database.IndexPlanCompounds | matmethods/vasp/database.py:54-62 | there are 1 + \|fields\| + 4 requests; the last four are the formula loop's compound indexes |
| Database.IndexPlanBackground | matmethods/vasp/database.py:49-62 | every request carries the caller's `background` flag |
| Database.IndexPlanShape | matmethods/vasp/database.py:47-62 | the whole request sequence: the `task_id` index first, one non-unique index per resolved field next, the four compound indexes written out, and the caller's background flag on every request |
| Database.IndexPlanUnique | matmethods/vasp/database.py:49-62 | a request is unique iff it is the first one |
| Database.MMVaspDb.BuildIndexes | matmethods/vasp/database.py:36-62 | the index log gains exactly `IndexPlan(indexes, background)`; the arguments default to None and true, as in the source |
| Database.MMVaspDb.CreateIndex | matmethods/vasp/database.py:49 | one request, with its keys and its two flags, is appended to the index log |
| Database.MMVaspDb.DeleteMany | matmethods/vasp/database.py:95 | the named collection, if it exists, becomes empty; nothing else changes |
| Database.MMVaspDb.DeleteOne | matmethods/vasp/database.py:96 | the first document matching the filter is removed from the named collection; nothing else changes |
| Database.MMVaspDb.InsertOne | matmethods/vasp/database.py:97 | the document is appended to the named collection, which is created if needed |
| Database.MMVaspDb.InsertGridfs | matmethods/vasp/database.py:64-80 | a file document holding the data, zlib-compressed iff `compress`, is added to `collection.files` under the id `put` generates; that id is returned together with the tag "zlib", whatever `compress` is; `collection` and `compress` default to "fs" and true |
| Database.ReturnedTagMisleads | matmethods/vasp/database.py:76-80 | with `compress` false the returned tag is still "zlib"; decoding the stored bytes by that tag fails, because they are not a zlib stream |
| Database.IntendedTagRoundTrip | matmethods/vasp/database.py:73-80 | decoding by the corrected tag gives back the stored text, compressed or not; that tag is "zlib" iff `compress` |
| Database.BandStructureFsId | matmethods/vasp/database.py:85 | the lookup `calcs_reversed[0]['bandstructure_fs_id']` succeeds iff every step exists and has the right type; the result is the value at the end of that path |
| Database.GetBandStructure | matmethods/vasp/database.py:82-92 | no task with that `task_id` gives TaskNotFound; a missing or ill-typed id path gives that path's error; no `bandstructure_fs` file with the referenced id gives NoFile; a file whose data is no zlib stream gives NotZlib; otherwise the result is the decompressed text, as BandStructureSymmLine iff `line_mode` (default false), else BandStructure |
| Database.BandStructureRoundTrip | matmethods/vasp/database.py:76-92 | a band structure stored with `insert_gridfs` under a fresh id that a task references reads back as the stored text in the requested variant; stored uncompressed, it fails with NotZlib |
| Database.MMVaspDb.Reset | matmethods/vasp/database.py:94-105 | the store becomes `ResetStore(old store, tasks collection)`; the index log gains the default index plan, `build_indexes()` being called with its default arguments |
| Database.ResetClears | matmethods/vasp/database.py:95-104 | after `reset`, the seven auxiliary collections are empty; the tasks collection is empty (unless it is `counter` itself); every other collection is unchanged |
| Database.ResetCounterContents | matmethods/vasp/database.py:95-97 | after `reset`, the counter collection is its old contents with the first `taskid` document removed, then the new counter appended; when the tasks collection is `counter`, it holds the new counter alone |
| Database.ResetCounter | matmethods/vasp/database.py:95-97 | if the old counter collection had at most one `taskid` document: afterwards exactly one document has `_id` "taskid", namely the last one, `{_id: "taskid", c: 0}`; the other documents are the old ones without `taskid`, in order |
| Database.RemoveFirstUnique | matmethods/vasp/database.py:96 | when at most one document matches, `delete_one` removes every match and keeps the rest in order |
| Database.DeleteAuxInTurn | matmethods/vasp/database.py:98-104 | the seven auxiliary deletions, in the order the source makes them, are one `DeleteEach` over the auxiliary names |
| Database.DeleteEachEffect | matmethods/vasp/database.py:98-104 | deleting a list of collections in turn empties each of them and leaves every other collection as it was |

## Left out

- zlib and JSON are not modelled. A compressed blob is tagged `Zlib(text)`, and decompressing it gives the text back. The compression level, which the source passes as `compress`, plays no part.
- `get_band_structure` stops at the JSON text. The model does not cover `json.loads` or the `from_dict` constructors of pymatgen's `BandStructure` and `BandStructureSymmLine`. It also does not cover the error path where the decompressed bytes are not valid JSON.
- Database.GetBandStructure: it is a function of the store value, not a method of `MMVaspDb`. The `{"calcs_reversed": 1}` projection of `find_one` is not modelled, because the model reads only that field.
- The GridFS internals are not modelled. `put` writes only the `.files` document, and the data sits inline in it; the `.chunks` collection is not modelled. The `ObjectId` that `put` generates is the `putId` parameter of `InsertGridfs`.
- Database.MMVaspDb.InsertGridfs: `d` is text. The docstring calls it a dict, and with `compress` false the source would hand that dict to `put` unchanged.
- The `MMDb` constructor is outside the model: the connection, host, port, credentials and database selection. The constructor here takes a collection name and an existing store.
- MongoDB semantics are abstracted away:
  - Creating an index makes a request that is appended to a log. Deduplication of existing indexes is not modelled, and neither is the `unique` constraint applied to the existing data.
  - Atomicity and concurrency are not modelled.
- Database.ResetCounter: the counter property assumes that the old counter collection held at most one `taskid` document. MongoDB's unique `_id` index guarantees this, but the model of the store does not enforce it. Database.ResetCounterContents states the counter collection with no such assumption.
- The Firework constructors are not modelled inside: `OptimizeFW`, `LepsFW`, `MPRelaxSet` and `RamanSusceptibilityTensorToDbTask`, including the central-difference Raman computation. Each node is a record of the arguments it receives. A node whose source passes no `name` has `None`, meaning the constructor's own default.
- `step_size` is a `real`. The model uses only its negation and its place in the displacement list.
- Some code is logging or demonstration only and is not modelled: the logger, the `__main__` block of raman.py, and the empty `MMBoltztrapDb` class.

## Findings

| source | as written | input that shows it | evidently intended | confidence | as-written member | corrected member |
|---|---|---|---|---|---|---|
| matmethods/vasp/database.py:80 | `insert_gridfs` returns the tag "zlib" in every case | `compress=False`: the data is stored uncompressed, but the returned tag says "zlib" | the docstring promises "the type of compression used", so the tag should say "zlib" only when the data was compressed | not executed | Database.ReturnedTagMisleads | Database.IntendedTagRoundTrip |

`MMVaspDb.InsertGridfs` keeps the tag as the source returns it, through `ReturnedTag`. `IntendedTag` is the corrected tag, and `IntendedTagRoundTrip` proves that decoding by it always recovers the stored data.
