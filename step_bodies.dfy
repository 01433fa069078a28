/** The pushed task bodies as they run: validate the record, then update it in place or report the error. */
module StepBodies {
  import opened Wrappers
  import opened Documents
  import opened Context
  import opened Steps
  import opened StepLaws

  /** The first task, handed only the continuation; it returns the record it passes on (a keyless object when there is none). */
  method StartTask(s: Step, connect: Connector) returns (r: Reply, params: ParamsObject)
    ensures r == Start(s, connect)
    ensures fresh(params)
    ensures r.Next? ==> params.Contents() == r.params
  {
    if s.Server? {
      var connected := connect(s.connStr);
      if connected.Ok? {
        params := new ParamsObject.Connect(connected.value);
        r := Next(params.Contents());
      } else {
        params := new ParamsObject.Bare();
        r := Fail(Driver(connected.error));
      }
      return;
    }
    // The continuation sits where the record should be, and it has no keys.
    params := new ParamsObject.Bare();
    var ok := CheckParams(params, Stage(s));
    FirstTaskMustBeServer(s, connect);
    assert !ok;
    // Reporting the failure calls the missing second argument.
    r := Thrown;
  }

  /** A later task, handed the record: it updates the record in place, or allocates a new one for `collection`. */
  method Invoke(s: Step, params: ParamsObject) returns (r: Reply, next: ParamsObject)
    modifies params
    ensures r == Apply(s, old(params.Contents()))
    ensures r.Next? ==> next.Contents() == r.params
    ensures next == params || fresh(next)
    ensures !s.Collection? ==> next == params
    ensures s.Collection? ==> unchanged(params)
    ensures !r.Next? ==> unchanged(params)
  {
    match s
    // `server` takes one argument, so the record lands where its continuation should be.
    case Server(_) => r, next := Thrown, params;
    case Collection(collectionName) => r, next := CollectionTask(collectionName, params);
    case Where(where) => r, next := WhereTask(where, params);
    case Not => r, next := NotTask(params);
    case Equal(equalVal) => r, next := EqualTask(equalVal, params);
    case LessThan(lessThanVal) => r, next := LessThanTask(lessThanVal, params);
    case GreatThan(greatThanVal) => r, next := GreatThanTask(greatThanVal, params);
    case Include(includeArr) => r, next := IncludeTask(includeArr, params);
    case Set(field, value) => r, next := SetTask(field, value, params);
    case Find => r, next := FindTask(params);
    case Remove => r, next := RemoveTask(params);
    case Update => r, next := UpdateTask(params);
    case Insert(doc) => r, next := InsertTask(doc, params);
  }

  /** The `collection` task: resolve the handle and replace the record by `{db, collection}`. */
  method CollectionTask(collectionName: string, params: ParamsObject) returns (r: Reply, next: ParamsObject)
    ensures r == Apply(Collection(collectionName), params.Contents())
    ensures r.Next? ==> fresh(next) && next.Contents() == r.params
    ensures !r.Next? ==> next == params
    ensures unchanged(params)
  {
    RequiredByStage(params.Contents());
    next := params;
    var ok := CheckParams(params, "collection");
    if !ok {
      return Fail(NotEnoughParams), params;
    }
    var collection := Coll(params.db.value, collectionName);
    next := Rebuild(params.db.value, collection);
    r := Next(next.Contents());
  }

  /** The `where` task: clear the negation flag and set the field. */
  method WhereTask(where: string, params: ParamsObject) returns (r: Reply, next: ParamsObject)
    modifies params
    ensures r == Apply(Where(where), old(params.Contents()))
    ensures r.Next? ==> next.Contents() == r.params
    ensures next == params
    ensures !r.Next? ==> unchanged(params)
  {
    RequiredByStage(params.Contents());
    next := params;
    var ok := CheckParams(params, "where");
    if !ok {
      return Fail(NotEnoughParams), params;
    }
    params.isNot := Some(false);
    params.where := Some(where);
    r := Next(params.Contents());
  }

  /** The `not` task: set the negation flag. */
  method NotTask(params: ParamsObject) returns (r: Reply, next: ParamsObject)
    modifies params
    ensures r == Apply(Not, old(params.Contents()))
    ensures r.Next? ==> next.Contents() == r.params
    ensures next == params
    ensures !r.Next? ==> unchanged(params)
  {
    RequiredByStage(params.Contents());
    next := params;
    var ok := CheckParams(params, "not");
    if !ok {
      return Fail(NotEnoughParams), params;
    }
    params.isNot := Some(true);
    r := Next(params.Contents());
  }

  /** The `equal` task: store the `!=` fragment when negated, the `==` fragment otherwise. */
  method EqualTask(equalVal: Value, params: ParamsObject) returns (r: Reply, next: ParamsObject)
    modifies params
    ensures r == Apply(Equal(equalVal), old(params.Contents()))
    ensures r.Next? ==> next.Contents() == r.params
    ensures next == params
    ensures !r.Next? ==> unchanged(params)
  {
    RequiredByFilterStage(params.Contents());
    next := params;
    var ok := CheckParams(params, "equal");
    if !ok {
      return Fail(NotEnoughParams), params;
    }
    if params.isNot.value {
      params.findArgs := Some(CompareRequest(params.where.value, "!=", equalVal));
      return Next(params.Contents()), params;
    }
    params.findArgs := Some(CompareRequest(params.where.value, "==", equalVal));
    r := Next(params.Contents());
  }

  /** The `lessThan` task: store the `>` fragment when negated, the `<` fragment otherwise. */
  method LessThanTask(lessThanVal: Value, params: ParamsObject) returns (r: Reply, next: ParamsObject)
    modifies params
    ensures r == Apply(LessThan(lessThanVal), old(params.Contents()))
    ensures r.Next? ==> next.Contents() == r.params
    ensures next == params
    ensures !r.Next? ==> unchanged(params)
  {
    RequiredByFilterStage(params.Contents());
    next := params;
    var ok := CheckParams(params, "lessThan");
    if !ok {
      return Fail(NotEnoughParams), params;
    }
    if params.isNot.value {
      params.findArgs := Some(CompareRequest(params.where.value, ">", lessThanVal));
      return Next(params.Contents()), params;
    }
    params.findArgs := Some(CompareRequest(params.where.value, "<", lessThanVal));
    r := Next(params.Contents());
  }

  /** The `greatThan` task: store the `<` fragment when negated, the `>` fragment otherwise. */
  method GreatThanTask(greatThanVal: Value, params: ParamsObject) returns (r: Reply, next: ParamsObject)
    modifies params
    ensures r == Apply(GreatThan(greatThanVal), old(params.Contents()))
    ensures r.Next? ==> next.Contents() == r.params
    ensures next == params
    ensures !r.Next? ==> unchanged(params)
  {
    RequiredByFilterStage(params.Contents());
    next := params;
    var ok := CheckParams(params, "greatThan");
    if !ok {
      return Fail(NotEnoughParams), params;
    }
    if params.isNot.value {
      params.findArgs := Some(CompareRequest(params.where.value, "<", greatThanVal));
      return Next(params.Contents()), params;
    }
    params.findArgs := Some(CompareRequest(params.where.value, ">", greatThanVal));
    r := Next(params.Contents());
  }

  /** The `include` task: store the membership filter built by the loops. */
  method IncludeTask(includeArr: seq<Value>, params: ParamsObject) returns (r: Reply, next: ParamsObject)
    modifies params
    ensures r == Apply(Include(includeArr), old(params.Contents()))
    ensures r.Next? ==> next.Contents() == r.params
    ensures next == params
    ensures !r.Next? ==> unchanged(params)
  {
    RequiredByFilterStage(params.Contents());
    next := params;
    var ok := CheckParams(params, "include");
    if !ok {
      return Fail(NotEnoughParams), params;
    }
    var findArgs := BuildInclude(params.where.value, params.isNot.value, includeArr);
    params.findArgs := Some(findArgs);
    r := Next(params.Contents());
  }

  /** The `set` task: store the update document and the multi-document option. */
  method SetTask(field: string, value: Value, params: ParamsObject) returns (r: Reply, next: ParamsObject)
    modifies params
    ensures r == Apply(Set(field, value), old(params.Contents()))
    ensures r.Next? ==> next.Contents() == r.params
    ensures next == params
    ensures !r.Next? ==> unchanged(params)
  {
    RequiredByFilterStage(params.Contents());
    next := params;
    var ok := CheckParams(params, "set");
    if !ok {
      return Fail(NotEnoughParams), params;
    }
    params.setArgs := Some(SetDoc(field, value));
    params.optionArgs := Some(MultiOption);
    r := Next(params.Contents());
  }

  /** The `find` task: query the collection with the filter; the continuation is never called. */
  method FindTask(params: ParamsObject) returns (r: Reply, next: ParamsObject)
    modifies params
    ensures r == Apply(Find, old(params.Contents()))
    ensures r.Next? ==> next.Contents() == r.params
    ensures next == params
    ensures !r.Next? ==> unchanged(params)
  {
    RequiredByTerminalStage(params.Contents());
    next := params;
    var ok := CheckParams(params, "find");
    if !ok {
      return Fail(NotEnoughParams), params;
    }
    r := Stored(FindDocs(params.collection.value, params.findArgs.value), params.db.value);
  }

  /** The `remove` task: delete by the filter; the continuation is never called. */
  method RemoveTask(params: ParamsObject) returns (r: Reply, next: ParamsObject)
    modifies params
    ensures r == Apply(Remove, old(params.Contents()))
    ensures r.Next? ==> next.Contents() == r.params
    ensures next == params
    ensures !r.Next? ==> unchanged(params)
  {
    RequiredByTerminalStage(params.Contents());
    next := params;
    var ok := CheckParams(params, "remove");
    if !ok {
      return Fail(NotEnoughParams), params;
    }
    r := Stored(RemoveDocs(params.collection.value, params.findArgs.value), params.db.value);
  }

  /** The `update` task: update by the filter, which may be absent; the continuation is never called. */
  method UpdateTask(params: ParamsObject) returns (r: Reply, next: ParamsObject)
    modifies params
    ensures r == Apply(Update, old(params.Contents()))
    ensures r.Next? ==> next.Contents() == r.params
    ensures next == params
    ensures !r.Next? ==> unchanged(params)
  {
    RequiredByTerminalStage(params.Contents());
    next := params;
    var ok := CheckParams(params, "update");
    if !ok {
      return Fail(NotEnoughParams), params;
    }
    r := Stored(UpdateDocs(params.collection.value, params.findArgs.GetOr(Undefined), params.setArgs.value, params.optionArgs.value), params.db.value);
  }

  /** The `insert` task: insert the document; no filter is needed and the continuation is never called. */
  method InsertTask(doc: Value, params: ParamsObject) returns (r: Reply, next: ParamsObject)
    modifies params
    ensures r == Apply(Insert(doc), old(params.Contents()))
    ensures r.Next? ==> next.Contents() == r.params
    ensures next == params
    ensures !r.Next? ==> unchanged(params)
  {
    RequiredByStage(params.Contents());
    next := params;
    var ok := CheckParams(params, "insert");
    if !ok {
      return Fail(NotEnoughParams), params;
    }
    r := Stored(InsertDoc(params.collection.value, doc), params.db.value);
  }

  /** The literal `{db: params.db, collection}` the `collection` step replaces the record with. */
  method Rebuild(db: Db, collection: Coll) returns (next: ParamsObject)
    ensures fresh(next) && next.Contents() == Selected(db, collection)
  {
    next := new ParamsObject.Select(db, collection);
  }
}
