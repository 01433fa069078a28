/** The exported builder object: every chained method pushes one task onto the module-level `tasks` list; terminal methods then run the list. */
module Builder {
  import opened Documents
  import Steps
  import opened Pipeline

  /** The module object together with the `tasks` list its methods share. */
  class Multivarka {
    var tasks: seq<Steps.Step>

    /** The module as loaded: `tasks` starts empty. */
    constructor ()
      ensures tasks == []
    {
      tasks := [];
    }

    method Server(connStr: string) returns (self: Multivarka)
      modifies this
      ensures tasks == old(tasks) + [Steps.Server(connStr)] && self == this
    {
      tasks := tasks + [Steps.Server(connStr)];
      self := this;
    }

    method Collection(collectionName: string) returns (self: Multivarka)
      modifies this
      ensures tasks == old(tasks) + [Steps.Collection(collectionName)] && self == this
    {
      tasks := tasks + [Steps.Collection(collectionName)];
      self := this;
    }

    method Where(where: string) returns (self: Multivarka)
      modifies this
      ensures tasks == old(tasks) + [Steps.Where(where)] && self == this
    {
      tasks := tasks + [Steps.Where(where)];
      self := this;
    }

    method Not() returns (self: Multivarka)
      modifies this
      ensures tasks == old(tasks) + [Steps.Not] && self == this
    {
      tasks := tasks + [Steps.Not];
      self := this;
    }

    method Equal(equalVal: Value) returns (self: Multivarka)
      modifies this
      ensures tasks == old(tasks) + [Steps.Equal(equalVal)] && self == this
    {
      tasks := tasks + [Steps.Equal(equalVal)];
      self := this;
    }

    method LessThan(lessThanVal: Value) returns (self: Multivarka)
      modifies this
      ensures tasks == old(tasks) + [Steps.LessThan(lessThanVal)] && self == this
    {
      tasks := tasks + [Steps.LessThan(lessThanVal)];
      self := this;
    }

    method GreatThan(greatThanVal: Value) returns (self: Multivarka)
      modifies this
      ensures tasks == old(tasks) + [Steps.GreatThan(greatThanVal)] && self == this
    {
      tasks := tasks + [Steps.GreatThan(greatThanVal)];
      self := this;
    }

    method Include(includeArr: seq<Value>) returns (self: Multivarka)
      modifies this
      ensures tasks == old(tasks) + [Steps.Include(includeArr)] && self == this
    {
      tasks := tasks + [Steps.Include(includeArr)];
      self := this;
    }

    method Set(field: string, value: Value) returns (self: Multivarka)
      modifies this
      ensures tasks == old(tasks) + [Steps.Set(field, value)] && self == this
    {
      tasks := tasks + [Steps.Set(field, value)];
      self := this;
    }

    /** Push the `find` task and run the whole list; `connect` stands for the driver. */
    method Find(connect: Steps.Connector) returns (self: Multivarka, out: Outcome)
      modifies this
      ensures tasks == old(tasks) + [Steps.Find] && self == this
      ensures out == Run(tasks, connect)
    {
      tasks := tasks + [Steps.Find];
      out := Waterfall(tasks, connect);
      self := this;
    }

    /** Push the `remove` task and run the whole list. */
    method Remove(connect: Steps.Connector) returns (self: Multivarka, out: Outcome)
      modifies this
      ensures tasks == old(tasks) + [Steps.Remove] && self == this
      ensures out == Run(tasks, connect)
    {
      tasks := tasks + [Steps.Remove];
      out := Waterfall(tasks, connect);
      self := this;
    }

    /** Push the `update` task and run the whole list. */
    method Update(connect: Steps.Connector) returns (self: Multivarka, out: Outcome)
      modifies this
      ensures tasks == old(tasks) + [Steps.Update] && self == this
      ensures out == Run(tasks, connect)
    {
      tasks := tasks + [Steps.Update];
      out := Waterfall(tasks, connect);
      self := this;
    }

    /** Push the `insert` task for `doc` and run the whole list. */
    method Insert(doc: Value, connect: Steps.Connector) returns (self: Multivarka, out: Outcome)
      modifies this
      ensures tasks == old(tasks) + [Steps.Insert(doc)] && self == this
      ensures out == Run(tasks, connect)
    {
      tasks := tasks + [Steps.Insert(doc)];
      out := Waterfall(tasks, connect);
      self := this;
    }

    /** Empty the shared list. */
    method Reset()
      modifies this
      ensures tasks == []
    {
      tasks := [];
    }
  }

  /** The chain `server(url).collection("users").where("age").lessThan(30)`. */
  function AgeChain(url: string): seq<Steps.Step> {
    [Steps.Server(url), Steps.Collection("users"), Steps.Where("age"), Steps.LessThan(Num(30))]
  }

  /** Building the age chain on the shared object, followed by `find`. */
  method FindYoungUsers(m: Multivarka, url: string, connect: Steps.Connector) returns (out: Outcome)
    modifies m
    ensures m.tasks == old(m.tasks) + AgeChain(url) + [Steps.Find]
    ensures out == Run(m.tasks, connect)
  {
    var b := m.Server(url);
    b := b.Collection("users");
    b := b.Where("age");
    b := b.LessThan(Num(30));
    b, out := b.Find(connect);
  }

  /** With a `reset` before each chain, the same chain run twice gives the same, independent outcome. */
  method ResetIsolatesRuns(m: Multivarka, url: string, connect: Steps.Connector) returns (first: Outcome, second: Outcome)
    modifies m
    ensures first == Run(AgeChain(url) + [Steps.Find], connect)
    ensures second == first
  {
    m.Reset();
    first := FindYoungUsers(m, url, connect);
    assert m.tasks == AgeChain(url) + [Steps.Find];
    m.Reset();
    second := FindYoungUsers(m, url, connect);
    assert m.tasks == AgeChain(url) + [Steps.Find];
  }

  /** Without a `reset`, the second chain queues behind the first `find`: its own steps never run and the first run is repeated. */
  method StaleChainRepeatsFirstRun(m: Multivarka, url: string, doc: Value, connect: Steps.Connector) returns (first: Outcome, second: Outcome)
    requires m.tasks == []
    modifies m
    ensures m.tasks == AgeChain(url) + [Steps.Find, Steps.Server(url), Steps.Collection("users"), Steps.Insert(doc)]
    ensures second == first
  {
    first := FindYoungUsers(m, url, connect);
    ghost var firstTasks := m.tasks;
    var b := m.Server(url);
    b := b.Collection("users");
    b, second := b.Insert(doc, connect);
    StaleTasksMaskNewChain(firstTasks, [Steps.Server(url), Steps.Collection("users"), Steps.Insert(doc)], connect);
    assert m.tasks == firstTasks + [Steps.Server(url), Steps.Collection("users"), Steps.Insert(doc)];
  }
}
