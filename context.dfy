/** The `params` record threaded through the steps, and `validParams` with its `requiredArgs` table. */
module Context {
  import opened Wrappers
  import opened Documents

  /** A connection handle as returned by the driver's connect. */
  datatype Db = Db(handle: nat)

  /** What `db.collection(name)` returns: a handle on the named collection of that connection. */
  datatype Coll = Coll(db: Db, name: string)

  /** The value of a `params` record: `None` is a key the record does not have. */
  datatype Params = Params(
    db: Option<Db>,
    collection: Option<Coll>,
    where: Option<string>,
    isNot: Option<bool>,
    findArgs: Option<Value>,
    setArgs: Option<Value>,
    optionArgs: Option<Value>)

  /** A record with no keys at all. */
  const NoKeys := Params(None, None, None, None, None, None, None)

  /** `{db}`, as the `server` step builds it. */
  function Connected(db: Db): Params {
    NoKeys.(db := Some(db))
  }

  /** `{db, collection}`, as the `collection` step builds it. */
  function Selected(db: Db, collection: Coll): Params {
    NoKeys.(db := Some(db), collection := Some(collection))
  }

  /** The key names a record can carry: `db`, `collection`, `where`, `isNot`, `findArgs`, `setArgs`, `optionArgs`. */
  datatype Key = DbKey | CollectionKey | WhereKey | IsNotKey | FindArgsKey | SetArgsKey | OptionArgsKey

  /** Whether the record has an own key of that name. */
  predicate Has(p: Params, k: Key) {
    match k
    case DbKey => p.db.Some?
    case CollectionKey => p.collection.Some?
    case WhereKey => p.where.Some?
    case IsNotKey => p.isNot.Some?
    case FindArgsKey => p.findArgs.Some?
    case SetArgsKey => p.setArgs.Some?
    case OptionArgsKey => p.optionArgs.Some?
  }

  /** Every key name a record can carry. */
  const AllKeys: set<Key> := {DbKey, CollectionKey, WhereKey, IsNotKey, FindArgsKey, SetArgsKey, OptionArgsKey}

  /** `Object.keys(params)`, as a set: key order plays no part in `validParams`. */
  function Keys(p: Params): set<Key> {
    set k | k in AllKeys && Has(p, k)
  }

  /** The `requiredArgs` table: the keys each stage needs. */
  const RequiredArgs: map<string, seq<Key>> := map[
    "collection" := [DbKey],
    "where" := [DbKey, CollectionKey],
    "not" := [DbKey, CollectionKey, WhereKey, IsNotKey],
    "equal" := [DbKey, CollectionKey, WhereKey, IsNotKey],
    "lessThan" := [DbKey, CollectionKey, WhereKey, IsNotKey],
    "greatThan" := [DbKey, CollectionKey, WhereKey, IsNotKey],
    "include" := [DbKey, CollectionKey, WhereKey, IsNotKey],
    "find" := [DbKey, CollectionKey, WhereKey, IsNotKey, FindArgsKey],
    "remove" := [DbKey, CollectionKey, WhereKey, IsNotKey, FindArgsKey],
    "set" := [DbKey, CollectionKey, WhereKey, IsNotKey],
    "update" := [DbKey, CollectionKey, WhereKey, IsNotKey, SetArgsKey, OptionArgsKey],
    "insert" := [DbKey, CollectionKey]
  ]

  /** `requiredArgs[stage]`; a stage missing from the table gives `undefined`, over which `for...in` runs no iteration. */
  function Required(stage: string): seq<Key> {
    if stage in RequiredArgs then RequiredArgs[stage] else []
  }

  /** `validParams`: every key the stage requires is among the record's keys. */
  predicate ValidParams(p: Params, stage: string) {
    forall i :: 0 <= i < |Required(stage)| ==> Required(stage)[i] in Keys(p)
  }

  /** The table read as presence conditions for the stages up to a field choice: only whether a key is there counts, never its value. */
  lemma RequiredByStage(p: Params)
    ensures ValidParams(p, "collection") <==> p.db.Some?
    ensures ValidParams(p, "where") <==> p.db.Some? && p.collection.Some?
    ensures ValidParams(p, "insert") <==> p.db.Some? && p.collection.Some?
    ensures ValidParams(p, "not") <==> FieldChosen(p)
  {
    KeysPresence(p);
    StageNeeds(p, "collection", [DbKey]);
    StageNeeds(p, "where", [DbKey, CollectionKey]);
    StageNeeds(p, "insert", [DbKey, CollectionKey]);
    StageNeeds(p, "not", [DbKey, CollectionKey, WhereKey, IsNotKey]);
  }

  /** `db`, `collection`, `where` and `isNot` are all present. */
  predicate FieldChosen(p: Params) {
    p.db.Some? && p.collection.Some? && p.where.Some? && p.isNot.Some?
  }

  /** The comparison, membership and `set` stages need what `not` needs. */
  lemma RequiredByFilterStage(p: Params)
    ensures ValidParams(p, "equal") <==> FieldChosen(p)
    ensures ValidParams(p, "lessThan") <==> FieldChosen(p)
    ensures ValidParams(p, "greatThan") <==> FieldChosen(p)
    ensures ValidParams(p, "include") <==> FieldChosen(p)
    ensures ValidParams(p, "set") <==> FieldChosen(p)
  {
    KeysPresence(p);
    StageNeeds(p, "equal", [DbKey, CollectionKey, WhereKey, IsNotKey]);
    StageNeeds(p, "lessThan", [DbKey, CollectionKey, WhereKey, IsNotKey]);
    StageNeeds(p, "greatThan", [DbKey, CollectionKey, WhereKey, IsNotKey]);
    StageNeeds(p, "include", [DbKey, CollectionKey, WhereKey, IsNotKey]);
    StageNeeds(p, "set", [DbKey, CollectionKey, WhereKey, IsNotKey]);
  }

  /** `find` and `remove` also need `findArgs`; `update` needs `setArgs` and `optionArgs` but not `findArgs`. */
  lemma RequiredByTerminalStage(p: Params)
    ensures ValidParams(p, "find") <==> FieldChosen(p) && p.findArgs.Some?
    ensures ValidParams(p, "remove") <==> FieldChosen(p) && p.findArgs.Some?
    ensures ValidParams(p, "update") <==> FieldChosen(p) && p.setArgs.Some? && p.optionArgs.Some?
  {
    KeysPresence(p);
    StageNeeds(p, "find", [DbKey, CollectionKey, WhereKey, IsNotKey, FindArgsKey]);
    StageNeeds(p, "remove", [DbKey, CollectionKey, WhereKey, IsNotKey, FindArgsKey]);
    StageNeeds(p, "update", [DbKey, CollectionKey, WhereKey, IsNotKey, SetArgsKey, OptionArgsKey]);
  }

  /** Which key names `Object.keys` lists. */
  lemma KeysPresence(p: Params)
    ensures DbKey in Keys(p) <==> p.db.Some?
    ensures CollectionKey in Keys(p) <==> p.collection.Some?
    ensures WhereKey in Keys(p) <==> p.where.Some?
    ensures IsNotKey in Keys(p) <==> p.isNot.Some?
    ensures FindArgsKey in Keys(p) <==> p.findArgs.Some?
    ensures SetArgsKey in Keys(p) <==> p.setArgs.Some?
    ensures OptionArgsKey in Keys(p) <==> p.optionArgs.Some?
  {
  }

  /** Indexing over the required list and membership in it say the same. */
  lemma StageNeeds(p: Params, stage: string, required: seq<Key>)
    requires Required(stage) == required
    ensures ValidParams(p, stage) <==> forall k :: k in required ==> k in Keys(p)
  {
    if ValidParams(p, stage) {
      forall k | k in required ensures k in Keys(p) {
        var i :| 0 <= i < |required| && required[i] == k;
      }
    }
  }

  /** Every stage in the table needs `db`, so a record without keys fails every one of them. */
  lemma EveryStageNeedsDb(p: Params, stage: string)
    requires stage in RequiredArgs
    requires p.db.None?
    ensures !ValidParams(p, stage)
  {
    assert Required(stage)[0] == DbKey;
  }

  /** A stage that is not in the table requires nothing. */
  lemma UnknownStagePasses(p: Params, stage: string)
    requires stage !in RequiredArgs
    ensures ValidParams(p, stage)
  {
  }

  /** The mutable `params` object the steps update in place. */
  class ParamsObject {
    var db: Option<Db>
    var collection: Option<Coll>
    var where: Option<string>
    var isNot: Option<bool>
    var findArgs: Option<Value>
    var setArgs: Option<Value>
    var optionArgs: Option<Value>

    /** The record's current keys and values. */
    function Contents(): Params
      reads this
    {
      Params(db, collection, where, isNot, findArgs, setArgs, optionArgs)
    }

    /** An object with no own keys. */
    constructor Bare()
      ensures Contents() == NoKeys
    {
      db, collection, where, isNot := None, None, None, None;
      findArgs, setArgs, optionArgs := None, None, None;
    }

    /** The literal `{db}`. */
    constructor Connect(db: Db)
      ensures Contents() == Connected(db)
    {
      this.db := Some(db);
      collection, where, isNot := None, None, None;
      findArgs, setArgs, optionArgs := None, None, None;
    }

    /** The literal `{db, collection}`. */
    constructor Select(db: Db, collection: Coll)
      ensures Contents() == Selected(db, collection)
    {
      this.db, this.collection := Some(db), Some(collection);
      where, isNot := None, None;
      findArgs, setArgs, optionArgs := None, None, None;
    }
  }

  /** The loop of `validParams`: look up each required key among `Object.keys(params)`, returning false at the first one missing. */
  method CheckParams(params: ParamsObject, stage: string) returns (ok: bool)
    ensures ok == ValidParams(params.Contents(), stage)
  {
    var requiredParams := Required(stage);
    var keys := Keys(params.Contents());
    var param := 0;
    while param < |requiredParams|
      invariant 0 <= param <= |requiredParams|
      invariant forall j :: 0 <= j < param ==> requiredParams[j] in keys
    {
      if requiredParams[param] !in keys {
        return false;
      }
      param := param + 1;
    }
    return true;
  }
}
