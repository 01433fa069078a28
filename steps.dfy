/** The deferred steps each builder method pushes, what one step does to the record it is handed, and the store calls terminal steps issue. */
module Steps {
  import opened Wrappers
  import opened Documents
  import opened Context

  /** One pushed task, by the builder method that pushed it and its arguments. */
  datatype Step =
    | Server(connStr: string)
    | Collection(collectionName: string)
    | Where(field: string)
    | Not
    | Equal(equalVal: Value)
    | LessThan(lessThanVal: Value)
    | GreatThan(greatThanVal: Value)
    | Include(includeArr: seq<Value>)
    | Set(field: string, value: Value)
    | Find
    | Remove
    | Update
    | Insert(doc: Value)
  {
    /** The steps that issue a store call instead of calling their continuation. */
    predicate IsTerminal() {
      Find? || Remove? || Update? || Insert?
    }
  }

  /** The stage name each step passes to `validParams`; `server` validates nothing. */
  function Stage(s: Step): string
    requires !s.Server?
  {
    match s
    case Collection(_) => "collection"
    case Where(_) => "where"
    case Not => "not"
    case Equal(_) => "equal"
    case LessThan(_) => "lessThan"
    case GreatThan(_) => "greatThan"
    case Include(_) => "include"
    case Set(_, _) => "set"
    case Find => "find"
    case Remove => "remove"
    case Update => "update"
    case Insert(_) => "insert"
  }

  /** What reaches the waterfall's error channel: the validation message, or the driver's connection error. */
  datatype Error = Message(text: string) | Driver(reason: string)

  /** The one error a step reports itself. */
  const NotEnoughParams := Message("Недостаточно параметров")

  /** A call on a collection handle; the store's reply goes to the user callback, after which the connection is closed. */
  datatype StoreCall =
    | FindDocs(coll: Coll, filter: Value)
    | RemoveDocs(coll: Coll, filter: Value)
    | UpdateDocs(coll: Coll, filter: Value, update: Value, options: Value)
    | InsertDoc(coll: Coll, doc: Value)

  /** What one task does with its continuation. */
  datatype Reply =
    | Next(params: Params)                  // cb(null, params)
    | Fail(err: Error)                      // cb(err)
    | Stored(call: StoreCall, closes: Db)   // the store is called; the continuation never is
    | Thrown                                // a TypeError: a non-function was called as the continuation

  /** The driver's connect, which the model receives as a parameter. */
  type Connector = string -> Result<Db, string>

  /** The first task, which `async.waterfall` calls with the continuation alone. */
  function Start(s: Step, connect: Connector): Reply {
    match s
    case Server(connStr) =>
      (match connect(connStr)
       case Ok(db) => Next(Connected(db))
       case Err(e) => Fail(Driver(e)))
    // The continuation takes the place of params: it has no keys, so validation
    // fails, and the step reports that through its second argument, which is undefined.
    case _ => Thrown
  }

  /** A later task, called with the previous task's params and the continuation. */
  function Apply(s: Step, p: Params): Reply {
    RequiredByStage(p);
    RequiredByFilterStage(p);
    RequiredByTerminalStage(p);
    match s
    // `server` takes one argument, so params lands where its continuation should be.
    case Server(_) => Thrown
    case Collection(name) =>
      if !ValidParams(p, "collection") then Fail(NotEnoughParams)
      else Next(Selected(p.db.value, Coll(p.db.value, name)))
    case Where(field) =>
      if !ValidParams(p, "where") then Fail(NotEnoughParams)
      else Next(p.(isNot := Some(false), where := Some(field)))
    case Not =>
      if !ValidParams(p, "not") then Fail(NotEnoughParams)
      else Next(p.(isNot := Some(true)))
    case Equal(v) =>
      if !ValidParams(p, "equal") then Fail(NotEnoughParams)
      else if p.isNot.value then Next(p.(findArgs := Some(CompareRequest(p.where.value, "!=", v))))
      else Next(p.(findArgs := Some(CompareRequest(p.where.value, "==", v))))
    case LessThan(v) =>
      if !ValidParams(p, "lessThan") then Fail(NotEnoughParams)
      else if p.isNot.value then Next(p.(findArgs := Some(CompareRequest(p.where.value, ">", v))))
      else Next(p.(findArgs := Some(CompareRequest(p.where.value, "<", v))))
    case GreatThan(v) =>
      if !ValidParams(p, "greatThan") then Fail(NotEnoughParams)
      else if p.isNot.value then Next(p.(findArgs := Some(CompareRequest(p.where.value, "<", v))))
      else Next(p.(findArgs := Some(CompareRequest(p.where.value, ">", v))))
    case Include(arr) =>
      if !ValidParams(p, "include") then Fail(NotEnoughParams)
      else Next(p.(findArgs := Some(IncludeRequest(p.where.value, p.isNot.value, arr))))
    case Set(field, value) =>
      if !ValidParams(p, "set") then Fail(NotEnoughParams)
      else Next(p.(setArgs := Some(SetDoc(field, value)), optionArgs := Some(MultiOption)))
    case Find =>
      if !ValidParams(p, "find") then Fail(NotEnoughParams)
      else Stored(FindDocs(p.collection.value, p.findArgs.value), p.db.value)
    case Remove =>
      if !ValidParams(p, "remove") then Fail(NotEnoughParams)
      else Stored(RemoveDocs(p.collection.value, p.findArgs.value), p.db.value)
    case Update =>
      if !ValidParams(p, "update") then Fail(NotEnoughParams)
      else Stored(UpdateDocs(p.collection.value, p.findArgs.GetOr(Undefined), p.setArgs.value, p.optionArgs.value), p.db.value)
    case Insert(doc) =>
      if !ValidParams(p, "insert") then Fail(NotEnoughParams)
      else Stored(InsertDoc(p.collection.value, doc), p.db.value)
  }

  /** `{$set: {[field]: value}}`. */
  function SetDoc(field: string, value: Value): Value {
    Obj(map["$set" := Obj(map[field := value])])
  }

  /** `{multi: true}`. */
  const MultiOption := Obj(map["multi" := Bool(true)])

  /** The collection handle a store call goes through. */
  function Target(call: StoreCall): Coll {
    call.coll
  }
}

/** Properties of one step, stated on `Apply`. */
module StepLaws {
  import opened Wrappers
  import opened Documents
  import opened Context
  import opened Steps

  /** Every stage but `server` is decided by its validation: a failed check delivers the message, a passed one continues, or reaches the store for a terminal step. */
  lemma StepValidation(s: Step, p: Params)
    requires !s.Server?
    ensures Apply(s, p) == Fail(NotEnoughParams) <==> !ValidParams(p, Stage(s))
    ensures ValidParams(p, Stage(s)) && s.IsTerminal() ==> Apply(s, p).Stored?
    ensures ValidParams(p, Stage(s)) && !s.IsTerminal() ==> Apply(s, p).Next?
  {
  }

  /** Negation turns the comparison round instead of wrapping it: `!=` for equal, `>` for lessThan, `<` for greatThan; without it each step uses its own operator. */
  lemma NegationFlipsComparisons(p: Params, v: Value)
    requires FieldChosen(p)
    ensures var f := p.where.value;
      p.isNot == Some(true) ==>
        && Apply(Equal(v), p) == Next(p.(findArgs := Some(Obj(map[f := Obj(map["$ne" := v])]))))
        && Apply(LessThan(v), p) == Next(p.(findArgs := Some(Obj(map[f := Obj(map["$gt" := v])]))))
        && Apply(GreatThan(v), p) == Next(p.(findArgs := Some(Obj(map[f := Obj(map["$lt" := v])]))))
    ensures var f := p.where.value;
      p.isNot == Some(false) ==>
        && Apply(Equal(v), p) == Next(p.(findArgs := Some(Obj(map[f := v]))))
        && Apply(LessThan(v), p) == Next(p.(findArgs := Some(Obj(map[f := Obj(map["$lt" := v])]))))
        && Apply(GreatThan(v), p) == Next(p.(findArgs := Some(Obj(map[f := Obj(map["$gt" := v])]))))
  {
    RequiredByFilterStage(p);
    FragmentShape(p.where.value, v);
  }

  /** `include` stores the membership filter for the current field and negation flag and changes nothing else. */
  lemma IncludeStoresMembership(p: Params, arr: seq<Value>)
    requires FieldChosen(p)
    ensures Apply(Include(arr), p) == Next(p.(findArgs := Some(IncludeRequest(p.where.value, p.isNot.value, arr))))
  {
    RequiredByFilterStage(p);
  }

  /** `where(f)` sets the field and clears negation, keeping every other key. */
  lemma WhereFrame(p: Params, field: string)
    requires p.db.Some? && p.collection.Some?
    ensures Apply(Where(field), p).Next?
    ensures var q := Apply(Where(field), p).params;
      && q.where == Some(field) && q.isNot == Some(false)
      && q.db == p.db && q.collection == p.collection
      && q.findArgs == p.findArgs && q.setArgs == p.setArgs && q.optionArgs == p.optionArgs
  {
    RequiredByStage(p);
  }

  /** `not` sets `isNot` and nothing else. */
  lemma NotFrame(p: Params)
    requires FieldChosen(p)
    ensures Apply(Not, p) == Next(p.(isNot := Some(true)))
  {
    RequiredByStage(p);
  }

  /** `collection(name)` rebuilds the record as exactly `{db, collection}`, dropping every other key. */
  lemma CollectionRebuilds(p: Params, name: string)
    requires p.db.Some?
    ensures Apply(Collection(name), p).Next?
    ensures var q := Apply(Collection(name), p).params;
      && Keys(q) == {DbKey, CollectionKey}
      && q.db == p.db && q.collection == Some(Coll(p.db.value, name))
  {
    RequiredByStage(p);
  }

  /** `set(field, value)` stores the update and the multi-document option and leaves the filter, the field and the flag alone. */
  lemma SetFrame(p: Params, field: string, value: Value)
    requires FieldChosen(p)
    ensures Apply(Set(field, value), p).Next?
    ensures var q := Apply(Set(field, value), p).params;
      && q.setArgs == Some(Obj(map["$set" := Obj(map[field := value])]))
      && q.optionArgs == Some(Obj(map["multi" := Bool(true)]))
      && q.findArgs == p.findArgs && q.where == p.where && q.isNot == p.isNot
      && q.db == p.db && q.collection == p.collection
  {
    RequiredByFilterStage(p);
  }

  /** Without a prior `where`, `not`, the comparison and membership steps, `set` and the filtered terminals all fail validation. */
  lemma NeedsWhere(s: Step, p: Params)
    requires !s.Server? && !s.Collection? && !s.Where? && !s.Insert?
    requires p.where.None?
    ensures Apply(s, p) == Fail(NotEnoughParams)
  {
    RequiredByStage(p);
    RequiredByFilterStage(p);
    RequiredByTerminalStage(p);
  }

  /** `isNot` set to false is present, so it passes validation as well as true does. */
  lemma FalseFlagPasses(p: Params, field: string, v: Value)
    requires p.db.Some? && p.collection.Some?
    ensures var q := Apply(Where(field), p).params;
      q.isNot == Some(false) && Apply(Equal(v), q).Next?
  {
    RequiredByStage(p);
    RequiredByFilterStage(Apply(Where(field), p).params);
  }

  /** `update` passes without any comparison; the store then receives `undefined` as the filter. */
  lemma UpdateWithoutFilter(p: Params)
    requires FieldChosen(p) && p.setArgs.Some? && p.optionArgs.Some? && p.findArgs.None?
    ensures Apply(Update, p) == Stored(UpdateDocs(p.collection.value, Undefined, p.setArgs.value, p.optionArgs.value), p.db.value)
  {
    RequiredByTerminalStage(p);
  }

  /** A second `not` before a comparison changes nothing. */
  lemma NotIsIdempotent(p: Params)
    requires Apply(Not, p).Next?
    ensures Apply(Not, Apply(Not, p).params) == Apply(Not, p)
  {
    RequiredByStage(p);
    RequiredByStage(Apply(Not, p).params);
  }

  /** `where` erases an earlier `not`: the flag lives until the next `where`. */
  lemma WhereClearsNot(p: Params, field: string)
    requires Apply(Not, p).Next?
    ensures Apply(Where(field), Apply(Not, p).params) == Apply(Where(field), p)
  {
    RequiredByStage(p);
    RequiredByStage(Apply(Not, p).params);
  }

  /** The comparison and membership steps. */
  predicate IsFilter(s: Step) {
    s.Equal? || s.LessThan? || s.GreatThan? || s.Include?
  }

  /** Filters do not compose: a later comparison or membership step replaces the earlier filter entirely. */
  lemma LastFilterWins(s1: Step, s2: Step, p: Params)
    requires IsFilter(s1) && IsFilter(s2)
    requires Apply(s1, p).Next?
    ensures Apply(s2, Apply(s1, p).params) == Apply(s2, p)
  {
    var q := Apply(s1, p).params;
    RequiredByFilterStage(p);
    assert FieldChosen(q);
    RequiredByFilterStage(q);
  }

  /** Apart from `collection`, which rebuilds the record, a step that continues keeps every key it was given. */
  lemma KeysOnlyGrow(s: Step, p: Params)
    requires !s.Collection?
    requires Apply(s, p).Next?
    ensures Keys(p) <= Keys(Apply(s, p).params)
  {
    var q := Apply(s, p).params;
    if s.Where? || s.Not? {
      RequiredByStage(p);
    } else {
      RequiredByFilterStage(p);
    }
    forall k | k in Keys(p) ensures k in Keys(q) {
      assert Has(p, k);
    }
  }

  /** The collection handle, when there is one, belongs to the record's connection. */
  predicate Coherent(p: Params) {
    p.collection.Some? ==> p.db.Some? && p.collection.value.db == p.db.value
  }

  /** Steps keep the connection and its collection handle together; a store call goes through the record's collection and closes the record's connection. */
  lemma ConnectionKept(s: Step, p: Params)
    requires Coherent(p)
    ensures Apply(s, p).Next? ==> Apply(s, p).params.db == p.db && Coherent(Apply(s, p).params)
    ensures Apply(s, p).Stored? ==>
      && p.db == Some(Apply(s, p).closes)
      && p.collection == Some(Target(Apply(s, p).call))
      && Target(Apply(s, p).call).db == Apply(s, p).closes
  {
    RequiredByStage(p);
    RequiredByFilterStage(p);
    RequiredByTerminalStage(p);
  }

  /** Only `server` can go first: any other first task validates the keyless continuation, fails, and calls `undefined`. */
  lemma FirstTaskMustBeServer(s: Step, connect: Connector)
    requires !s.Server?
    ensures !ValidParams(NoKeys, Stage(s))
    ensures Start(s, connect) == Thrown
  {
    EveryStageNeedsDb(NoKeys, Stage(s));
  }
}
