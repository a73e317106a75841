/**
 * The schema operations of `MMVaspDb` (matmethods/vasp/database.py).
 *
 * The database is abstracted to a map from collection names to the sequence
 * of documents each holds (a GridFS bucket `x` being the two collections
 * `x.files` and `x.chunks`), and the tasks collection's index state to the
 * log of `create_index` requests made on it.
 */
module Database {
  import opened Common

  /** The bytes stored for a blob: the text itself, or its zlib stream. */
  datatype Payload = Plain(text: string) | Zlib(text: string)

  /** A BSON value, as far as these operations look into one. */
  datatype Value =
    | Str(s: string)
    | Int(i: int)
    | List(items: seq<Value>)
    | Doc(fields: map<string, Value>)
    | Blob(payload: Payload)

  type Document = map<string, Value>
  type Store = map<string, seq<Document>>

  datatype Direction = Ascending | Descending

  /** One `create_index` request: its key pattern and its two flags. */
  datatype IndexRequest = IndexRequest(keys: seq<(string, Direction)>, unique: bool, background: bool)

  /** What `get_band_structure` can raise before deserialising. */
  datatype Error =
    | TaskNotFound          // find_one returned None
    | MissingKey(key: string)
    | IndexOutOfRange      // calcs_reversed is empty
    | WrongType            // a value is not the list or document indexed
    | NoFile               // GridFS has no file with that id
    | NotZlib              // the stored bytes are not a zlib stream

  /** The deserialised band structure, kept as its JSON text. */
  datatype BandStructureData = BandStructure(json: string) | BandStructureSymmLine(json: string)

  const DefaultIndexFields: seq<string> :=
    ["formula_pretty", "formula_anonymous", "output.energy", "output.energy_per_atom"]
  const CompoundFormulas: seq<string> := ["formula_pretty", "formula_anonymous"]
  const CounterCollection: string := "counter"
  const TaskIdKey: string := "taskid"

  /** The collections `reset` empties besides the tasks collection. */
  const AuxCollections: seq<string> :=
    ["boltztrap", "dos_fs.files", "dos_fs.chunks", "dos_boltztrap_fs.files",
     "dos_boltztrap_fs.chunks", "bandstructure_fs.files", "bandstructure_fs.chunks"]

  /** A collection's documents; a collection that does not exist is empty. */
  function Get(s: Store, name: string): seq<Document>
  {
    if name in s then s[name] else []
  }

  // ---------------------------------------------------------------------
  // Driver operations on the abstract store

  predicate Matches(d: Document, key: string, v: Value)
  {
    key in d && d[key] == v
  }

  /** The position of the first document whose `key` equals `v`. */
  function FindFirst(docs: seq<Document>, key: string, v: Value): (r: Option<nat>)
    ensures r.Some? ==> r.value < |docs| && Matches(docs[r.value], key, v)
                        && forall k :: 0 <= k < r.value ==> !Matches(docs[k], key, v)
    ensures r.None? ==> forall k :: 0 <= k < |docs| ==> !Matches(docs[k], key, v)
  {
    if docs == [] then None
    else if Matches(docs[0], key, v) then Some(0)
    else match FindFirst(docs[1..], key, v)
      case None => None
      case Some(k) => Some(k + 1)
  }

  /** `delete_many({})`: the collection, where it exists, becomes empty. */
  function DeleteAll(s: Store, name: string): Store
  {
    if name in s then s[name := []] else s
  }

  /** The documents without the first one whose `key` equals `v`. */
  function RemoveFirst(docs: seq<Document>, key: string, v: Value): seq<Document>
  {
    match FindFirst(docs, key, v)
    case None => docs
    case Some(k) => docs[..k] + docs[k + 1..]
  }

  /** `delete_one({key: v})`: the first matching document goes. */
  function DeleteFirst(s: Store, name: string, key: string, v: Value): Store
  {
    if name in s then s[name := RemoveFirst(s[name], key, v)] else s
  }

  /** `insert_one(doc)`: appended, creating the collection if needed. */
  function Insert(s: Store, name: string, doc: Document): Store
  {
    s[name := Get(s, name) + [doc]]
  }

  // ---------------------------------------------------------------------
  // build_indexes

  /** `indexes if indexes else [...]`: a missing or empty list means the defaults. */
  function ResolveIndexFields(indexes: Option<seq<string>>): (r: seq<string>)
    ensures (indexes.None? || indexes.value == []) ==> r == DefaultIndexFields
    ensures (indexes.Some? && indexes.value != []) ==> r == indexes.value
    ensures |r| > 0
  {
    if indexes.Some? && indexes.value != [] then indexes.value else DefaultIndexFields
  }

  /** `create_index(field, ...)` on a field name: an ascending single-field key. */
  function SingleFieldIndex(field: string, unique: bool, background: bool): IndexRequest
  {
    IndexRequest([(field, Ascending)], unique, background)
  }

  /** The key pattern (formula ASC, energy DESC, completed_at DESC). */
  function CompoundKeys(formula: string, energy: string): seq<(string, Direction)>
  {
    [(formula, Ascending), (energy, Descending), ("completed_at", Descending)]
  }

  function CompoundIndex(formula: string, energy: string, background: bool): IndexRequest
  {
    IndexRequest(CompoundKeys(formula, energy), false, background)
  }

  /** The loop over the single-field indexes. */
  function SingleIndexes(fields: seq<string>, background: bool): seq<IndexRequest>
    decreases |fields|
  {
    if fields == [] then []
    else SingleIndexes(fields[..|fields| - 1], background)
         + [SingleFieldIndex(fields[|fields| - 1], false, background)]
  }

  /** The loop over the formula fields, two compound indexes each. */
  function CompoundIndexes(formulas: seq<string>, background: bool): seq<IndexRequest>
    decreases |formulas|
  {
    if formulas == [] then []
    else CompoundIndexes(formulas[..|formulas| - 1], background)
         + [CompoundIndex(formulas[|formulas| - 1], "output.energy", background),
            CompoundIndex(formulas[|formulas| - 1], "output.energy_per_atom", background)]
  }

  /** Every request `build_indexes(indexes, background)` makes, in order. */
  function IndexPlan(indexes: Option<seq<string>>, background: bool): seq<IndexRequest>
  {
    [SingleFieldIndex("task_id", true, background)]
    + SingleIndexes(ResolveIndexFields(indexes), background)
    + CompoundIndexes(CompoundFormulas, background)
  }

  lemma {:induction false} SingleIndexesAt(fields: seq<string>, background: bool, k: nat)
    requires k < |fields|
    ensures |SingleIndexes(fields, background)| == |fields|
    ensures SingleIndexes(fields, background)[k] == SingleFieldIndex(fields[k], false, background)
  {
    var init := fields[..|fields| - 1];
    if k < |fields| - 1 {
      SingleIndexesAt(init, background, k);
    } else if |fields| > 1 {
      SingleIndexesAt(init, background, 0);
    }
  }

  lemma SingleIndexesSnoc(fields: seq<string>, background: bool, k: nat)
    requires k < |fields|
    ensures SingleIndexes(fields[..k + 1], background)
            == SingleIndexes(fields[..k], background) + [SingleFieldIndex(fields[k], false, background)]
  {
    assert fields[..k + 1][..k] == fields[..k];
  }

  lemma CompoundIndexesSnoc(formulas: seq<string>, background: bool, k: nat)
    requires k < |formulas|
    ensures CompoundIndexes(formulas[..k + 1], background)
            == CompoundIndexes(formulas[..k], background)
               + [CompoundIndex(formulas[k], "output.energy", background),
                  CompoundIndex(formulas[k], "output.energy_per_atom", background)]
  {
    assert formulas[..k + 1][..k] == formulas[..k];
  }

  /** The formula loop requests exactly four compound indexes. */
  lemma CompoundPlan(background: bool)
    ensures CompoundIndexes(CompoundFormulas, background)
            == [IndexRequest([("formula_pretty", Ascending), ("output.energy", Descending),
                              ("completed_at", Descending)], false, background),
                IndexRequest([("formula_pretty", Ascending), ("output.energy_per_atom", Descending),
                              ("completed_at", Descending)], false, background),
                IndexRequest([("formula_anonymous", Ascending), ("output.energy", Descending),
                              ("completed_at", Descending)], false, background),
                IndexRequest([("formula_anonymous", Ascending), ("output.energy_per_atom", Descending),
                              ("completed_at", Descending)], false, background)]
  {
    CompoundIndexesSnoc(CompoundFormulas, background, 0);
    CompoundIndexesSnoc(CompoundFormulas, background, 1);
    assert CompoundFormulas[..2] == CompoundFormulas;
    assert CompoundIndexes(CompoundFormulas, background)
           == [CompoundIndex("formula_pretty", "output.energy", background),
               CompoundIndex("formula_pretty", "output.energy_per_atom", background),
               CompoundIndex("formula_anonymous", "output.energy", background),
               CompoundIndex("formula_anonymous", "output.energy_per_atom", background)];
  }

  /** The index plan: a unique `task_id` index first, one non-unique
      ascending index per field next, then the four compound indexes, all
      with the caller's background flag. */
  lemma IndexPlanShape(indexes: Option<seq<string>>, background: bool)
    ensures var plan := IndexPlan(indexes, background);
      var fields := ResolveIndexFields(indexes);
      && |plan| == 1 + |fields| + 4
      && plan[0] == IndexRequest([("task_id", Ascending)], true, background)
      && (forall k :: 0 <= k < |fields| ==>
            plan[1 + k] == IndexRequest([(fields[k], Ascending)], false, background))
      && plan[1 + |fields|..] ==
         [IndexRequest([("formula_pretty", Ascending), ("output.energy", Descending),
                        ("completed_at", Descending)], false, background),
          IndexRequest([("formula_pretty", Ascending), ("output.energy_per_atom", Descending),
                        ("completed_at", Descending)], false, background),
          IndexRequest([("formula_anonymous", Ascending), ("output.energy", Descending),
                        ("completed_at", Descending)], false, background),
          IndexRequest([("formula_anonymous", Ascending), ("output.energy_per_atom", Descending),
                        ("completed_at", Descending)], false, background)]
      && (forall k :: 0 <= k < |plan| ==> plan[k].background == background)
  {
    IndexPlanSingles(indexes, background);
    IndexPlanCompounds(indexes, background);
    IndexPlanBackground(indexes, background);
    CompoundPlan(background);
  }

  lemma IndexPlanSingles(indexes: Option<seq<string>>, background: bool)
    ensures var plan := IndexPlan(indexes, background);
      var fields := ResolveIndexFields(indexes);
      && |plan| == 1 + |fields| + 4
      && plan[0] == IndexRequest([("task_id", Ascending)], true, background)
      && (forall k :: 0 <= k < |fields| ==>
            plan[1 + k] == IndexRequest([(fields[k], Ascending)], false, background))
  {
    var plan := IndexPlan(indexes, background);
    var fields := ResolveIndexFields(indexes);
    var singles := SingleIndexes(fields, background);
    SingleIndexesAt(fields, background, 0);
    CompoundPlan(background);
    forall k | 0 <= k < |fields|
      ensures plan[1 + k] == IndexRequest([(fields[k], Ascending)], false, background)
    {
      SingleIndexesAt(fields, background, k);
      assert plan[1 + k] == singles[k];
    }
  }

  lemma IndexPlanCompounds(indexes: Option<seq<string>>, background: bool)
    ensures var plan := IndexPlan(indexes, background);
      var fields := ResolveIndexFields(indexes);
      |plan| == 1 + |fields| + 4 &&
      plan[1 + |fields|..] == CompoundIndexes(CompoundFormulas, background)
  {
    var fields := ResolveIndexFields(indexes);
    SingleIndexesAt(fields, background, 0);
    CompoundPlan(background);
  }

  lemma IndexPlanBackground(indexes: Option<seq<string>>, background: bool)
    ensures var plan := IndexPlan(indexes, background);
      forall k :: 0 <= k < |plan| ==> plan[k].background == background
  {
    var plan := IndexPlan(indexes, background);
    var fields := ResolveIndexFields(indexes);
    IndexPlanSingles(indexes, background);
    IndexPlanCompounds(indexes, background);
    CompoundPlan(background);
    var compounds := CompoundIndexes(CompoundFormulas, background);
    forall k | 0 <= k < |plan|
      ensures plan[k].background == background
    {
      if 1 <= k <= |fields| {
        assert plan[1 + (k - 1)] == IndexRequest([(fields[k - 1], Ascending)], false, background);
      } else if k > |fields| {
        assert plan[k] == plan[1 + |fields|..][k - 1 - |fields|];
        assert plan[k] == compounds[k - 1 - |fields|];
      }
    }
  }

  /** Only the first request is unique, and it is on `task_id`. */
  lemma IndexPlanUnique(indexes: Option<seq<string>>, background: bool)
    ensures var plan := IndexPlan(indexes, background);
      forall k :: 0 <= k < |plan| ==> (plan[k].unique <==> k == 0)
  {
    var plan := IndexPlan(indexes, background);
    var fields := ResolveIndexFields(indexes);
    IndexPlanShape(indexes, background);
    forall k | 0 <= k < |plan|
      ensures plan[k].unique <==> k == 0
    {
      if 1 <= k <= |fields| {
        assert plan[1 + (k - 1)] == IndexRequest([(fields[k - 1], Ascending)], false, background);
      } else if k > |fields| {
        assert plan[k] == plan[1 + |fields|..][k - 1 - |fields|];
      }
    }
  }

  // ---------------------------------------------------------------------
  // insert_gridfs and get_band_structure

  /** `d`, or `zlib.compress(d.encode())` when compress is set. */
  function StoredPayload(d: string, compress: bool): Payload
  {
    if compress then Zlib(d) else Plain(d)
  }

  /** The GridFS file document `fs.put` records under the given id. */
  function FileDoc(id: Value, p: Payload): Document
  {
    map["_id" := id, "data" := Blob(p)]
  }

  /** `GridFS(db, collection).put(...)` under the id the driver generates. */
  function PutFile(s: Store, collection: string, id: Value, p: Payload): Store
  {
    Insert(s, collection + ".files", FileDoc(id, p))
  }

  /** The compression tag `insert_gridfs` returns, as written: always "zlib". */
  function ReturnedTag(compress: bool): (tag: string)
  {
    "zlib"
  }

  /** The tag that describes what was stored. */
  function IntendedTag(compress: bool): (tag: string)
  {
    if compress then "zlib" else "none"
  }

  /** How a reader of a blob reference recovers the text: it decompresses
      when the tag says "zlib" and reads the bytes as they are otherwise. */
  function DecodeByTag(p: Payload, tag: string): (r: Result<string, Error>)
  {
    if tag == "zlib" then (if p.Zlib? then Success(p.text) else Failure(NotZlib))
    else (if p.Plain? then Success(p.text) else Failure(WrongType))
  }

  /** With compression off, the tag as written sends the reader to zlib
      with bytes that are no zlib stream. */
  lemma ReturnedTagMisleads(d: string)
    ensures ReturnedTag(false) == ReturnedTag(true) == "zlib"
    ensures DecodeByTag(StoredPayload(d, false), ReturnedTag(false)) == Failure(NotZlib)
  {
  }

  /** With the intended tag every stored blob reads back as what was stored. */
  lemma IntendedTagRoundTrip(d: string, compress: bool)
    ensures DecodeByTag(StoredPayload(d, compress), IntendedTag(compress)) == Success(d)
    ensures IntendedTag(compress) == "zlib" <==> compress
  {
  }

  /** `m_task['calcs_reversed'][0]['bandstructure_fs_id']`. */
  function BandStructureFsId(task: Document): (r: Result<Value, Error>)
    ensures r.Success? <==>
              && "calcs_reversed" in task && task["calcs_reversed"].List?
              && |task["calcs_reversed"].items| > 0
              && task["calcs_reversed"].items[0].Doc?
              && "bandstructure_fs_id" in task["calcs_reversed"].items[0].fields
    ensures r.Success? ==> r.value == task["calcs_reversed"].items[0].fields["bandstructure_fs_id"]
  {
    if "calcs_reversed" !in task then Failure(MissingKey("calcs_reversed"))
    else if !task["calcs_reversed"].List? then Failure(WrongType)
    else if |task["calcs_reversed"].items| == 0 then Failure(IndexOutOfRange)
    else if !task["calcs_reversed"].items[0].Doc? then Failure(WrongType)
    else if "bandstructure_fs_id" !in task["calcs_reversed"].items[0].fields
    then Failure(MissingKey("bandstructure_fs_id"))
    else Success(task["calcs_reversed"].items[0].fields["bandstructure_fs_id"])
  }

  /** `get_band_structure(task_id, line_mode)` up to deserialisation: the
      first task with that id, the file its first calculation references in
      the `bandstructure_fs` bucket, and that file's bytes decompressed. */
  function GetBandStructure(s: Store, tasks: string, taskId: Value, lineMode: bool := false)
    : (r: Result<BandStructureData, Error>)
    ensures FindFirst(Get(s, tasks), "task_id", taskId).None? ==> r == Failure(TaskNotFound)
    ensures (FindFirst(Get(s, tasks), "task_id", taskId).Some?
             && BandStructureFsId(Get(s, tasks)[FindFirst(Get(s, tasks), "task_id", taskId).value]).Failure?)
            ==> r == Failure(BandStructureFsId(Get(s, tasks)[FindFirst(Get(s, tasks), "task_id", taskId).value]).error)
    ensures (FindFirst(Get(s, tasks), "task_id", taskId).Some?
             && BandStructureFsId(Get(s, tasks)[FindFirst(Get(s, tasks), "task_id", taskId).value]).Success?)
            ==> var task := Get(s, tasks)[FindFirst(Get(s, tasks), "task_id", taskId).value];
                var files := Get(s, "bandstructure_fs.files");
                var f := FindFirst(files, "_id", BandStructureFsId(task).value);
                && (f.None? ==> r == Failure(NoFile))
                && (f.Some? && "data" in files[f.value] && files[f.value]["data"].Blob?
                    && files[f.value]["data"].payload.Zlib?
                    ==> var json := files[f.value]["data"].payload.text;
                        r == Success(if lineMode then BandStructureSymmLine(json) else BandStructure(json)))
                && (f.Some? && !("data" in files[f.value] && files[f.value]["data"].Blob?
                                 && files[f.value]["data"].payload.Zlib?)
                    ==> r == Failure(NotZlib))
    ensures r.Success? ==>
              && (r.value.BandStructureSymmLine? <==> lineMode)
              && FindFirst(Get(s, tasks), "task_id", taskId).Some?
              && var task := Get(s, tasks)[FindFirst(Get(s, tasks), "task_id", taskId).value];
                 && BandStructureFsId(task).Success?
                 && var f := FindFirst(Get(s, "bandstructure_fs.files"), "_id", BandStructureFsId(task).value);
                    && f.Some?
                    && "data" in Get(s, "bandstructure_fs.files")[f.value]
                    && Get(s, "bandstructure_fs.files")[f.value]["data"] == Blob(Zlib(r.value.json))
  {
    match FindFirst(Get(s, tasks), "task_id", taskId)
    case None => Failure(TaskNotFound)
    case Some(t) =>
      match BandStructureFsId(Get(s, tasks)[t])
      case Failure(e) => Failure(e)
      case Success(fsId) =>
        match FindFirst(Get(s, "bandstructure_fs.files"), "_id", fsId)
        case None => Failure(NoFile)
        case Some(f) =>
          var file := Get(s, "bandstructure_fs.files")[f];
          if "data" !in file || !file["data"].Blob? || !file["data"].payload.Zlib? then Failure(NotZlib)
          else
            var json := file["data"].payload.text;
            Success(if lineMode then BandStructureSymmLine(json) else BandStructure(json))
  }

  // ---------------------------------------------------------------------
  // reset

  /** The counter document `{"_id": "taskid", "c": c}`. */
  function CounterDoc(c: int): Document
  {
    map["_id" := Str(TaskIdKey), "c" := Int(c)]
  }

  /** The store after `reset`'s deletions and insertion, in the order the
      source makes them. */
  function ResetStore(s: Store, tasks: string): Store
  {
    var cleared := DeleteAll(s, tasks);
    var counted := Insert(DeleteFirst(cleared, CounterCollection, "_id", Str(TaskIdKey)),
                          CounterCollection, CounterDoc(0));
    DeleteEach(counted, AuxCollections)
  }

  /** The documents that do not match, in their order. */
  function WithoutMatches(docs: seq<Document>, key: string, v: Value): (r: seq<Document>)
    decreases |docs|
  {
    if docs == [] then []
    else (if Matches(docs[0], key, v) then [] else [docs[0]]) + WithoutMatches(docs[1..], key, v)
  }

  /** At most one document matches, as MongoDB's unique `_id` index ensures. */
  predicate AtMostOne(docs: seq<Document>, key: string, v: Value)
  {
    forall i, j :: 0 <= i < j < |docs| && Matches(docs[i], key, v) ==> !Matches(docs[j], key, v)
  }

  lemma {:induction false} WithoutMatchesNone(docs: seq<Document>, key: string, v: Value)
    ensures forall k :: 0 <= k < |WithoutMatches(docs, key, v)| ==> !Matches(WithoutMatches(docs, key, v)[k], key, v)
    ensures (forall k :: 0 <= k < |docs| ==> !Matches(docs[k], key, v)) ==> WithoutMatches(docs, key, v) == docs
  {
    if docs != [] {
      WithoutMatchesNone(docs[1..], key, v);
      var rest := WithoutMatches(docs[1..], key, v);
      var head := if Matches(docs[0], key, v) then [] else [docs[0]];
      assert WithoutMatches(docs, key, v) == head + rest;
      if forall k :: 0 <= k < |docs| ==> !Matches(docs[k], key, v) {
        assert forall k :: 0 <= k < |docs[1..]| ==> !Matches(docs[1..][k], key, v) by {
          forall k | 0 <= k < |docs[1..]| ensures !Matches(docs[1..][k], key, v) {
            assert docs[1..][k] == docs[k + 1];
          }
        }
        assert docs == [docs[0]] + docs[1..];
      }
    }
  }

  /** When at most one document matches, deleting the first match deletes
      every match and keeps the rest, in order. */
  lemma RemoveFirstCons(docs: seq<Document>, key: string, v: Value)
    requires docs != [] && !Matches(docs[0], key, v)
    ensures RemoveFirst(docs, key, v) == [docs[0]] + RemoveFirst(docs[1..], key, v)
  {
    var tail := docs[1..];
    match FindFirst(tail, key, v)
    case None =>
      assert docs == [docs[0]] + tail;
    case Some(k) =>
      assert FindFirst(docs, key, v) == Some(k + 1);
      assert docs == [docs[0]] + tail;
      SpliceCons(docs[0], tail, k);
  }

  /** Removing position k + 1 after a head is removing k from the tail. */
  lemma SpliceCons<T>(x: T, t: seq<T>, k: nat)
    requires k < |t|
    ensures ([x] + t)[..k + 1] + ([x] + t)[k + 2..] == [x] + (t[..k] + t[k + 1..])
  {
    assert ([x] + t)[..k + 1] == [x] + t[..k];
    assert ([x] + t)[k + 2..] == t[k + 1..];
  }

  lemma AtMostOneTail(docs: seq<Document>, key: string, v: Value)
    requires docs != [] && AtMostOne(docs, key, v)
    ensures AtMostOne(docs[1..], key, v)
    ensures Matches(docs[0], key, v) ==> forall k :: 0 <= k < |docs[1..]| ==> !Matches(docs[1..][k], key, v)
  {
    var tail := docs[1..];
    forall i, j | 0 <= i < j < |tail| && Matches(tail[i], key, v) ensures !Matches(tail[j], key, v) {
      assert tail[i] == docs[i + 1] && tail[j] == docs[j + 1];
    }
    if Matches(docs[0], key, v) {
      forall k | 0 <= k < |tail| ensures !Matches(tail[k], key, v) {
        assert tail[k] == docs[k + 1];
      }
    }
  }

  /** When at most one document matches, deleting the first match deletes
      every match and keeps the rest, in order. */
  lemma {:induction false} RemoveFirstUnique(docs: seq<Document>, key: string, v: Value)
    requires AtMostOne(docs, key, v)
    ensures RemoveFirst(docs, key, v) == WithoutMatches(docs, key, v)
  {
    if docs != [] {
      var tail := docs[1..];
      AtMostOneTail(docs, key, v);
      if Matches(docs[0], key, v) {
        WithoutMatchesNone(tail, key, v);
      } else {
        RemoveFirstUnique(tail, key, v);
        RemoveFirstCons(docs, key, v);
      }
    }
  }

  /** After `reset` every auxiliary collection is empty, the tasks collection
      is empty (unless it is the counter collection itself), and every other
      collection is exactly as it was. */
  lemma ResetClears(s: Store, tasks: string)
    ensures var r := ResetStore(s, tasks);
      && (forall k :: 0 <= k < |AuxCollections| ==> Get(r, AuxCollections[k]) == [])
      && (tasks != CounterCollection ==> Get(r, tasks) == [])
      && (forall n :: n !in AuxCollections && n != tasks && n != CounterCollection ==>
            (n in r <==> n in s) && (n in s ==> r[n] == s[n]))
  {
    var cleared := DeleteAll(s, tasks);
    var counted := Insert(DeleteFirst(cleared, CounterCollection, "_id", Str(TaskIdKey)),
                          CounterCollection, CounterDoc(0));
    DeleteEachEffect(counted, AuxCollections);
    CounterNotAux();
  }

  /** Deleting the documents of each collection named, in turn. */
  function DeleteEach(s: Store, names: seq<string>): Store
    decreases |names|
  {
    if names == [] then s else DeleteEach(DeleteAll(s, names[0]), names[1..])
  }

  /** The seven deletions `reset` makes one after another. */
  lemma DeleteAuxInTurn(s: Store)
    ensures DeleteEach(s, AuxCollections)
            == DeleteAll(DeleteAll(DeleteAll(DeleteAll(DeleteAll(DeleteAll(DeleteAll(s,
                 "boltztrap"), "dos_fs.files"), "dos_fs.chunks"), "dos_boltztrap_fs.files"),
                 "dos_boltztrap_fs.chunks"), "bandstructure_fs.files"), "bandstructure_fs.chunks")
  {
    var names := AuxCollections;
    assert names[1..][1..][1..][1..][1..][1..][1..] == [];
  }

  lemma {:induction false} DeleteEachEffect(s: Store, names: seq<string>)
    ensures var r := DeleteEach(s, names);
      && (forall k :: 0 <= k < |names| ==> Get(r, names[k]) == [])
      && (forall n :: n !in names ==> (n in r <==> n in s) && (n in s ==> r[n] == s[n]))
  {
    if names != [] {
      DeleteEachEffect(DeleteAll(s, names[0]), names[1..]);
    }
  }

  /** After `reset` the counter collection holds one `taskid` document,
      `{"_id": "taskid", "c": 0}`, last; its other documents are kept in
      order (none, if the tasks collection is the counter collection). */
  lemma ResetCounter(s: Store, tasks: string)
    requires AtMostOne(Get(s, CounterCollection), "_id", Str(TaskIdKey))
    ensures var c := Get(ResetStore(s, tasks), CounterCollection);
      && |c| > 0
      && c[|c| - 1] == CounterDoc(0)
      && (forall k :: 0 <= k < |c| ==> (Matches(c[k], "_id", Str(TaskIdKey)) <==> k == |c| - 1))
      && (tasks != CounterCollection ==>
            c == WithoutMatches(Get(s, CounterCollection), "_id", Str(TaskIdKey)) + [CounterDoc(0)])
      && (tasks == CounterCollection ==> c == [CounterDoc(0)])
  {
    var was := Get(s, CounterCollection);
    var taskid := Str(TaskIdKey);
    var kept := if tasks == CounterCollection then [] else WithoutMatches(was, "_id", taskid);
    ResetCounterContents(s, tasks);
    if tasks != CounterCollection {
      RemoveFirstUnique(was, "_id", taskid);
    }
    WithoutMatchesNone(was, "_id", taskid);
    CounterDocMatches();
    OnlyLastMatches(kept, CounterDoc(0), "_id", taskid);
  }

  /** The counter collection after `reset`: the first `taskid` document
      deleted (all of it, when it is also the tasks collection), then the
      fresh counter appended. */
  lemma ResetCounterContents(s: Store, tasks: string)
    ensures Get(ResetStore(s, tasks), CounterCollection)
            == (if tasks == CounterCollection then []
                else RemoveFirst(Get(s, CounterCollection), "_id", Str(TaskIdKey)))
               + [CounterDoc(0)]
  {
    var taskid := Str(TaskIdKey);
    var cleared := DeleteAll(s, tasks);
    var deleted := DeleteFirst(cleared, CounterCollection, "_id", taskid);
    var counted := Insert(deleted, CounterCollection, CounterDoc(0));
    if tasks != CounterCollection {
      assert Get(cleared, CounterCollection) == Get(s, CounterCollection);
    } else {
      assert Get(deleted, CounterCollection) == [];
    }
    DeleteEachEffect(counted, AuxCollections);
    CounterNotAux();
  }

  lemma OnlyLastMatches(docs: seq<Document>, d: Document, key: string, v: Value)
    requires forall k :: 0 <= k < |docs| ==> !Matches(docs[k], key, v)
    requires Matches(d, key, v)
    ensures var c := docs + [d];
      && |c| > 0 && c[|c| - 1] == d
      && forall k :: 0 <= k < |c| ==> (Matches(c[k], key, v) <==> k == |c| - 1)
  {
  }

  lemma CounterNotAux()
    ensures CounterCollection !in AuxCollections
  {
  }

  lemma CounterDocMatches()
    ensures Matches(CounterDoc(0), "_id", Str(TaskIdKey))
  {
  }

  // ---------------------------------------------------------------------
  // Reading back what insert_gridfs stored

  lemma {:induction false} FindFirstAppend(docs: seq<Document>, d: Document, key: string, v: Value)
    requires FindFirst(docs, key, v).None? && Matches(d, key, v)
    ensures FindFirst(docs + [d], key, v) == Some(|docs|)
  {
    if docs != [] {
      assert (docs + [d])[1..] == docs[1..] + [d];
      FindFirstAppend(docs[1..], d, key, v);
    }
  }

  /** A band structure stored compressed under a fresh id that a task
      references is read back as it was stored; stored uncompressed, it
      cannot be read by `get_band_structure`, which always decompresses. */
  lemma BandStructureRoundTrip(s: Store, tasks: string, taskId: Value, d: string, fsId: Value,
                               compress: bool, lineMode: bool)
    requires tasks != "bandstructure_fs.files"
    requires FindFirst(Get(s, tasks), "task_id", taskId).Some?
    requires BandStructureFsId(Get(s, tasks)[FindFirst(Get(s, tasks), "task_id", taskId).value]) == Success(fsId)
    requires FindFirst(Get(s, "bandstructure_fs.files"), "_id", fsId).None?
    ensures var r := GetBandStructure(PutFile(s, "bandstructure_fs", fsId, StoredPayload(d, compress)),
                                      tasks, taskId, lineMode);
      r == if compress then Success(if lineMode then BandStructureSymmLine(d) else BandStructure(d))
           else Failure(NotZlib)
  {
    var files := "bandstructure_fs.files";
    assert "bandstructure_fs" + ".files" == files;
    var s' := PutFile(s, "bandstructure_fs", fsId, StoredPayload(d, compress));
    assert Get(s', tasks) == Get(s, tasks);
    FindFirstAppend(Get(s, files), FileDoc(fsId, StoredPayload(d, compress)), "_id", fsId);
    assert Get(s', files) == Get(s, files) + [FileDoc(fsId, StoredPayload(d, compress))];
  }

  // ---------------------------------------------------------------------
  // The database object

  /** `MMVaspDb`: a handle on a database and on its tasks collection. */
  class MMVaspDb {
    /** The name of the tasks collection (`self.collection`). */
    var collection: string
    /** The database's collections (`self.db`). */
    var db: Store
    /** The `create_index` requests made on the tasks collection, in order. */
    var indexLog: seq<IndexRequest>

    /** A handle on a database that holds `existing`; the collection name
        defaults to "tasks" in the source. */
    constructor (collection: string, existing: Store)
      ensures this.collection == collection && db == existing && indexLog == []
    {
      this.collection := collection;
      db := existing;
      indexLog := [];
    }

    /** `self.collection.create_index(keys, unique=..., background=...)`. */
    method CreateIndex(keys: seq<(string, Direction)>, unique: bool, background: bool)
      modifies this`indexLog
      ensures indexLog == old(indexLog) + [IndexRequest(keys, unique, background)]
    {
      indexLog := indexLog + [IndexRequest(keys, unique, background)];
    }

    /** `self.db[name].delete_many({})`. */
    method DeleteMany(name: string)
      modifies this`db
      ensures db == DeleteAll(old(db), name)
    {
      if name in db {
        db := db[name := []];
      }
    }

    /** `self.db[name].delete_one({key: v})`. */
    method DeleteOne(name: string, key: string, v: Value)
      modifies this`db
      ensures db == DeleteFirst(old(db), name, key, v)
    {
      if name in db {
        db := db[name := RemoveFirst(db[name], key, v)];
      }
    }

    /** `self.db[name].insert_one(doc)`. */
    method InsertOne(name: string, doc: Document)
      modifies this`db
      ensures db == Insert(old(db), name, doc)
    {
      db := db[name := Get(db, name) + [doc]];
    }

    /** `build_indexes(indexes, background)`. */
    method BuildIndexes(indexes: Option<seq<string>> := None, background: bool := true)
      modifies this`indexLog
      ensures indexLog == old(indexLog) + IndexPlan(indexes, background)
    {
      ghost var start := indexLog;
      var fields := ResolveIndexFields(indexes);
      CreateIndex([("task_id", Ascending)], true, background);
      ghost var head := start + [SingleFieldIndex("task_id", true, background)];
      // single field indexes
      ghost var singles: seq<IndexRequest> := [];
      var k := 0;
      while k < |fields|
        invariant 0 <= k <= |fields|
        invariant indexLog == head + singles
        invariant singles == SingleIndexes(fields[..k], background)
      {
        var single := SingleFieldIndex(fields[k], false, background);
        SingleIndexesSnoc(fields, background, k);
        CreateIndex([(fields[k], Ascending)], false, background);
        AppendAssoc(head, singles, [single]);
        singles := singles + [single];
        k := k + 1;
      }
      assert fields[..k] == fields;
      // compound indexes
      ghost var compounds: seq<IndexRequest> := [];
      var formulas := CompoundFormulas;
      var f := 0;
      while f < |formulas|
        invariant 0 <= f <= |formulas|
        invariant indexLog == head + singles + compounds
        invariant compounds == CompoundIndexes(formulas[..f], background)
      {
        var formula := formulas[f];
        CompoundIndexesSnoc(formulas, background, f);
        var byEnergy := CompoundIndex(formula, "output.energy", background);
        var byEnergyPerAtom := CompoundIndex(formula, "output.energy_per_atom", background);
        CreateIndex(CompoundKeys(formula, "output.energy"), false, background);
        CreateIndex(CompoundKeys(formula, "output.energy_per_atom"), false, background);
        AppendTwo(head + singles, compounds, byEnergy, byEnergyPerAtom);
        compounds := compounds + [byEnergy, byEnergyPerAtom];
        f := f + 1;
      }
      assert formulas[..f] == CompoundFormulas;
      AppendAssoc(start, [SingleFieldIndex("task_id", true, background)], singles);
      AppendAssoc(start, [SingleFieldIndex("task_id", true, background)] + singles, compounds);
    }

    /** `insert_gridfs(d, collection, compress)`: `putId` is the id that
        GridFS's `put` generates for the new file. */
    method InsertGridfs(d: string, putId: Value, collection: string := "fs", compress: bool := true)
      returns (fsId: Value, tag: string)
      modifies this`db
      ensures db == PutFile(old(db), collection, putId, StoredPayload(d, compress))
      ensures fsId == putId && tag == ReturnedTag(compress) && tag == "zlib"
    {
      var data := Plain(d);
      if compress {
        data := Zlib(d);
      }
      InsertOne(collection + ".files", FileDoc(putId, data));
      fsId, tag := putId, "zlib";
    }

    /** `reset()`: empties the tasks collection and the auxiliary
        collections, recreates the task id counter at zero, and requests the
        default indexes in the background. */
    method Reset()
      modifies this`db, this`indexLog
      ensures db == ResetStore(old(db), collection)
      ensures indexLog == old(indexLog) + IndexPlan(None, true)
    {
      ghost var s0 := db;
      DeleteMany(collection);
      DeleteOne(CounterCollection, "_id", Str(TaskIdKey));
      InsertOne(CounterCollection, CounterDoc(0));
      ghost var counted := db;
      assert counted == Insert(DeleteFirst(DeleteAll(s0, collection), CounterCollection, "_id", Str(TaskIdKey)),
                               CounterCollection, CounterDoc(0));
      DeleteMany("boltztrap");
      DeleteMany("dos_fs.files");
      DeleteMany("dos_fs.chunks");
      DeleteMany("dos_boltztrap_fs.files");
      DeleteMany("dos_boltztrap_fs.chunks");
      DeleteMany("bandstructure_fs.files");
      DeleteMany("bandstructure_fs.chunks");
      DeleteAuxInTurn(counted);
      assert db == DeleteEach(counted, AuxCollections);
      assert ResetStore(s0, collection) == DeleteEach(counted, AuxCollections);
      BuildIndexes();
    }
  }
}
