/** Whole chains, from `server` to a terminal call, and the store call each one issues. */
module Scenarios {
  import opened Wrappers
  import opened Documents
  import opened Context
  import opened Steps
  import opened StepLaws
  import opened Pipeline

  /** `server(url).collection("users").where("age").lessThan(30).find(cb)` queries `{age: {$lt: 30}}`. */
  lemma FindLessThan(url: string, db: Db, connect: Connector)
    requires connect(url) == Ok(db)
    ensures Run([Server(url), Collection("users"), Where("age"), LessThan(Num(30)), Find], connect)
      == Issued(FindDocs(Coll(db, "users"), Obj(map["age" := Obj(map["$lt" := Num(30)])])), db)
  {
    var tasks := [Server(url), Collection("users"), Where("age"), LessThan(Num(30)), Find];
    var users := Coll(db, "users");
    var selected := Selected(db, users);
    var chosen := selected.(where := Some("age"), isNot := Some(false));
    var filtered := chosen.(findArgs := Some(Obj(map["age" := Obj(map["$lt" := Num(30)])])));
    CollectionRebuilds(Connected(db), "users");
    WhereFrame(selected, "age");
    NegationFlipsComparisons(chosen, Num(30));
    RequiredByTerminalStage(filtered);
    ContinueStep(Connected(db), tasks[1..]);
    ContinueStep(selected, tasks[2..]);
    ContinueStep(chosen, tasks[3..]);
    ContinueStep(filtered, tasks[4..]);
  }

  /** With `not()` before `lessThan(30)` the query is `{age: {$gt: 30}}`. */
  lemma FindNotLessThan(url: string, db: Db, connect: Connector)
    requires connect(url) == Ok(db)
    ensures Run([Server(url), Collection("users"), Where("age"), Not, LessThan(Num(30)), Find], connect)
      == Issued(FindDocs(Coll(db, "users"), Obj(map["age" := Obj(map["$gt" := Num(30)])])), db)
  {
    var tasks := [Server(url), Collection("users"), Where("age"), Not, LessThan(Num(30)), Find];
    var users := Coll(db, "users");
    var selected := Selected(db, users);
    var chosen := selected.(where := Some("age"), isNot := Some(false));
    var negated := chosen.(isNot := Some(true));
    var filtered := negated.(findArgs := Some(Obj(map["age" := Obj(map["$gt" := Num(30)])])));
    CollectionRebuilds(Connected(db), "users");
    WhereFrame(selected, "age");
    NotFrame(chosen);
    NegationFlipsComparisons(negated, Num(30));
    RequiredByTerminalStage(filtered);
    ContinueStep(Connected(db), tasks[1..]);
    ContinueStep(selected, tasks[2..]);
    ContinueStep(chosen, tasks[3..]);
    ContinueStep(negated, tasks[4..]);
    ContinueStep(filtered, tasks[5..]);
  }

  /** `include(["admin", "owner"])` queries `{$or: [{role: "admin"}, {role: "owner"}]}`. */
  lemma FindInclude(url: string, db: Db, connect: Connector)
    requires connect(url) == Ok(db)
    ensures Run([Server(url), Collection("users"), Where("role"), Include([Str("admin"), Str("owner")]), Find], connect)
      == Issued(FindDocs(Coll(db, "users"),
           Obj(map["$or" := Arr([Obj(map["role" := Str("admin")]), Obj(map["role" := Str("owner")])])])), db)
  {
    var arr := [Str("admin"), Str("owner")];
    var tasks := [Server(url), Collection("users"), Where("role"), Include(arr), Find];
    var users := Coll(db, "users");
    var selected := Selected(db, users);
    var chosen := selected.(where := Some("role"), isNot := Some(false));
    assert arr[..1] == [Str("admin")];
    assert EqualEach("role", arr) == [Obj(map["role" := Str("admin")]), Obj(map["role" := Str("owner")])];
    var filtered := chosen.(findArgs := Some(IncludeRequest("role", false, arr)));
    CollectionRebuilds(Connected(db), "users");
    WhereFrame(selected, "role");
    IncludeStoresMembership(chosen, arr);
    RequiredByTerminalStage(filtered);
    ContinueStep(Connected(db), tasks[1..]);
    ContinueStep(selected, tasks[2..]);
    ContinueStep(chosen, tasks[3..]);
    ContinueStep(filtered, tasks[4..]);
  }

  /** `not().include(["admin"])` queries `{role: [{$ne: "admin"}]}`. */
  lemma FindNotInclude(url: string, db: Db, connect: Connector)
    requires connect(url) == Ok(db)
    ensures Run([Server(url), Collection("users"), Where("role"), Not, Include([Str("admin")]), Find], connect)
      == Issued(FindDocs(Coll(db, "users"), Obj(map["role" := Arr([Obj(map["$ne" := Str("admin")])])])), db)
  {
    var arr := [Str("admin")];
    var tasks := [Server(url), Collection("users"), Where("role"), Not, Include(arr), Find];
    var users := Coll(db, "users");
    var selected := Selected(db, users);
    var chosen := selected.(where := Some("role"), isNot := Some(false));
    var negated := chosen.(isNot := Some(true));
    assert arr[..0] == [];
    assert NotEqualEach(arr) == [Obj(map["$ne" := Str("admin")])];
    var filter := Obj(map["role" := Arr([Obj(map["$ne" := Str("admin")])])]);
    assert IncludeRequest("role", true, arr) == filter;
    var filtered := negated.(findArgs := Some(filter));
    CollectionRebuilds(Connected(db), "users");
    WhereFrame(selected, "role");
    NotFrame(chosen);
    IncludeStoresMembership(negated, arr);
    RequiredByTerminalStage(filtered);
    ContinueStep(Connected(db), tasks[1..]);
    ContinueStep(selected, tasks[2..]);
    ContinueStep(chosen, tasks[3..]);
    ContinueStep(negated, tasks[4..]);
    ContinueStep(filtered, tasks[5..]);
  }

  /** `where("id").equal(7).set("active", false).update(cb)` updates `{id: 7}` with `{$set: {active: false}}` and `{multi: true}`. */
  lemma UpdateEqual(url: string, db: Db, connect: Connector)
    requires connect(url) == Ok(db)
    ensures Run([Server(url), Collection("users"), Where("id"), Equal(Num(7)), Set("active", Bool(false)), Update], connect)
      == Issued(UpdateDocs(Coll(db, "users"), Obj(map["id" := Num(7)]),
           Obj(map["$set" := Obj(map["active" := Bool(false)])]), Obj(map["multi" := Bool(true)])), db)
  {
    var tasks := [Server(url), Collection("users"), Where("id"), Equal(Num(7)), Set("active", Bool(false)), Update];
    var users := Coll(db, "users");
    var selected := Selected(db, users);
    var chosen := selected.(where := Some("id"), isNot := Some(false));
    var filtered := chosen.(findArgs := Some(Obj(map["id" := Num(7)])));
    var updating := filtered.(setArgs := Some(Obj(map["$set" := Obj(map["active" := Bool(false)])])),
                              optionArgs := Some(Obj(map["multi" := Bool(true)])));
    CollectionRebuilds(Connected(db), "users");
    WhereFrame(selected, "id");
    NegationFlipsComparisons(chosen, Num(7));
    SetFrame(filtered, "active", Bool(false));
    RequiredByTerminalStage(updating);
    ContinueStep(Connected(db), tasks[1..]);
    ContinueStep(selected, tasks[2..]);
    ContinueStep(chosen, tasks[3..]);
    ContinueStep(filtered, tasks[4..]);
    ContinueStep(updating, tasks[5..]);
  }

  /** `insert({name: "x"}, cb)` needs no filter. */
  lemma InsertWithoutFilter(url: string, db: Db, connect: Connector)
    requires connect(url) == Ok(db)
    ensures Run([Server(url), Collection("users"), Insert(Obj(map["name" := Str("x")]))], connect)
      == Issued(InsertDoc(Coll(db, "users"), Obj(map["name" := Str("x")])), db)
  {
    var doc := Obj(map["name" := Str("x")]);
    var tasks := [Server(url), Collection("users"), Insert(doc)];
    var selected := Selected(db, Coll(db, "users"));
    CollectionRebuilds(Connected(db), "users");
    RequiredByStage(selected);
    ContinueStep(Connected(db), tasks[1..]);
    ContinueStep(selected, tasks[2..]);
  }

  /** A comparison before `where` fails validation, so the store is never reached. */
  lemma EqualBeforeWhere(url: string, db: Db, connect: Connector)
    requires connect(url) == Ok(db)
    ensures Run([Server(url), Collection("users"), Equal(Num(7)), Find], connect) == Failed(NotEnoughParams)
  {
    var tasks := [Server(url), Collection("users"), Equal(Num(7)), Find];
    var selected := Selected(db, Coll(db, "users"));
    CollectionRebuilds(Connected(db), "users");
    NeedsWhere(Equal(Num(7)), selected);
    ContinueStep(Connected(db), tasks[1..]);
    ContinueStep(selected, tasks[2..]);
  }

  /** A failed connection ends the run with the driver's error before any other task. */
  lemma ConnectionRefused(url: string, reason: string, rest: seq<Step>, connect: Connector)
    requires connect(url) == Err(reason)
    ensures Run([Server(url)] + rest, connect) == Failed(Driver(reason))
  {
    assert ([Server(url)] + rest)[0] == Server(url);
  }
}
