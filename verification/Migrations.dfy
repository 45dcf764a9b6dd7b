/** The migration runner, which may die between any two statements and is simply
    started again. */
module Migrations {
  import opened Model

  type Name = int

  datatype Table =
    | Businesses | Customers | Invoices | ApiKeys | PaymentAttempts
    | IdempotencyKeys | WebhookEvents | OutboundEvents

  /** What a migration creates: tables, columns added later, and indexes. */
  datatype Object = TableOf(t: Table) | ColumnOf(t: Table, column: string) | IndexOf(t: Table, index: string)

  /** One file: what its statements create and what must be there for them.
      Its SQL is one transaction. */
  datatype File = File(name: Name, creates: set<Object>, needs: set<Object>)

  /** schema_migrations, the schema itself, and for the record the files whose SQL was committed. */
  datatype Store = Store(recorded: set<Name>, schema: set<Object>, log: seq<Name>)

  const BUSINESSES := TableOf(Businesses)

  /** The names, in a set and in order, and the objects of the first n files. */
  function Names(files: seq<File>, n: nat): set<Name>
    requires n <= |files|
  {
    set i | 0 <= i < n :: files[i].name
  }

  function NameList(files: seq<File>, n: nat): seq<Name>
    requires n <= |files|
  {
    if n == 0 then [] else NameList(files, n - 1) + [files[n - 1].name]
  }

  function Objects(files: seq<File>, n: nat): set<Object>
    requires n <= |files|
  {
    if n == 0 then {} else Objects(files, n - 1) + files[n - 1].creates
  }

  // ---------------------------------------------------------------- one complete run

  predicate BaselineFires(st: Store) {
    BUSINESSES in st.schema && st.recorded == {}
  }

  /** recordExistingSchema. */
  function Baseline(files: seq<File>, st: Store): Store {
    if BaselineFires(st) then st.(recorded := Names(files, |files|)) else st
  }

  /** A file whose objects are missing cannot run. */
  predicate CanApply(f: File, st: Store) {
    f.name in st.recorded || f.needs <= st.schema
  }

  function ApplyOne(f: File, st: Store): Store {
    if f.name in st.recorded then st
    else if f.creates * st.schema != {} then st.(recorded := st.recorded + {f.name})  // "already exists"
    else Execute(f, st)
  }

  function Execute(f: File, st: Store): Store {
    Store(st.recorded + {f.name}, st.schema + f.creates, st.log + [f.name])
  }

  /** Everything file f needs is there, and nothing it creates. */
  predicate Fits(f: File, st: Store) {
    f.needs <= st.schema && f.creates * st.schema == {}
  }

  /** The first n files of a run's loop. */
  function ApplyFirst(files: seq<File>, n: nat, st: Store): Store
    requires n <= |files|
  {
    if n == 0 then st else ApplyOne(files[n - 1], ApplyFirst(files, n - 1, st))
  }

  predicate FirstApply(files: seq<File>, n: nat, st: Store)
    requires n <= |files|
  {
    n == 0 || (FirstApply(files, n - 1, st) && CanApply(files[n - 1], ApplyFirst(files, n - 1, st)))
  }

  /** A run that does not die: whether it succeeds, and what it makes of the store. */
  predicate Succeeds(files: seq<File>, st: Store) {
    FirstApply(files, |files|, Baseline(files, st))
  }

  function Migrated(files: seq<File>, st: Store): Store {
    ApplyFirst(files, |files|, Baseline(files, st))
  }

  /** Where a run that dies can leave the store: in the middle of the baseline or of the files. */
  ghost predicate LeftAt(files: seq<File>, st: Store, st': Store, k: nat) {
    && k <= |files|
    && (|| (BaselineFires(st) && st' == st.(recorded := Names(files, k)))
        || (FirstApply(files, k, Baseline(files, st)) && st' == ApplyFirst(files, k, Baseline(files, st))))
  }

  ghost predicate DiesAt(files: seq<File>, st: Store, st': Store) {
    exists k :: LeftAt(files, st, st', k)
  }

  // ---------------------------------------------------------------- the runner

  datatype Outcome = Done | Died | Failed

  datatype Exec = Executed | AlreadyExists | OtherError | Lost

  class Database {
    var recorded: set<Name>
    var schema: set<Object>
    var log: seq<Name>

    /** How many statements and commits have reported a failure so far. */
    ghost var faults: nat

    function Now(): Store
      reads this
    {
      Store(recorded, schema, log)
    }

    /** One autocommitted INSERT ... ON CONFLICT DO NOTHING.  One that is reported
        as failed may have taken effect. */
    method Insert(name: Name) returns (alive: bool)
      modifies this`recorded, this`faults
      ensures recorded == old(recorded) + {name} || (!alive && recorded == old(recorded))
      ensures faults == if alive then old(faults) else old(faults) + 1
    {
      alive := *;
      var done: bool := *;
      if alive || done {
        recorded := recorded + {name};
      }
      faults := if alive then faults else faults + 1;
    }

    /** The transaction that executes a file and records it.  A commit whose
        answer is lost may have taken effect. */
    method Migrate(f: File) returns (r: Exec)
      modifies this
      ensures r.Executed? ==> Fits(f, old(Now())) && Now() == Execute(f, old(Now()))
      ensures r.AlreadyExists? ==> f.needs <= old(schema) && f.creates * old(schema) != {} && Now() == old(Now())
      ensures r.OtherError? ==> !(f.needs <= old(schema)) && Now() == old(Now())
      ensures faults == if r.Lost? then old(faults) + 1 else old(faults)
      ensures r.Lost? ==> Now() == old(Now()) || (Fits(f, old(Now())) && Now() == Execute(f, old(Now())))
    {
      var alive: bool := *;
      if !alive {
        faults := faults + 1;
        return Lost;
      }
      if !(f.needs <= schema) {
        return OtherError;
      }
      if f.creates * schema != {} {
        return AlreadyExists;
      }
      var done: bool, answered: bool := *, *;
      if done {
        recorded, schema, log := recorded + {f.name}, schema + f.creates, log + [f.name];
      }
      r := if done && answered then Executed else Lost;
      faults := if r.Lost? then faults + 1 else faults;
    }

    method RecordExistingSchema(files: seq<File>) returns (alive: bool)
      modifies this`recorded, this`faults
      ensures faults == if alive then old(faults) else old(faults) + 1
      ensures alive ==> Now() == Baseline(files, old(Now()))
      ensures !alive ==> Now() == old(Now())
                         || (BaselineFires(old(Now())) && exists k :: 0 <= k <= |files| && recorded == Names(files, k))
    {
      if BUSINESSES !in schema || |recorded| > 0 {
        return true;
      }
      assert |recorded| == 0 && recorded == {};
      for i := 0 to |files|
        invariant recorded == Names(files, i) && faults == old(faults)
      {
        NextName(files, i);
        alive := Insert(files[i].name);
        if !alive {
          return false;
        }
      }
      alive := true;
    }

    /** RunMigrations over the .sql files in the order of their names. */
    method RunMigrations(files: seq<File>) returns (r: Outcome)
      modifies this
      ensures DiesAt(files, old(Now()), Now())
      ensures r.Done? ==> Succeeds(files, old(Now())) && Now() == Migrated(files, old(Now()))
      ensures r.Failed? ==> !Succeeds(files, old(Now()))
      ensures faults == if r.Died? then old(faults) + 1 else old(faults)
    {
      ghost var st := Now();
      var alive := RecordExistingSchema(files);
      assert LeftAt(files, st, st, 0);
      if !alive {
        if Now() != st {
          ghost var k :| 0 <= k <= |files| && recorded == Names(files, k);
          assert LeftAt(files, st, Now(), k);
        }
        return Died;
      }
      ghost var base := Now();
      for i := 0 to |files|
        invariant FirstApply(files, i, base) && Now() == ApplyFirst(files, i, base) && faults == old(faults)
      {
        assert LeftAt(files, st, Now(), i);
        if files[i].name !in recorded {
          ghost var next := ApplyFirst(files, i + 1, base);
          var e := Migrate(files[i]);
          match e {
            case Lost =>
              assert Now() == next ==> LeftAt(files, st, next, i + 1);
              return Died;
            case OtherError =>
              PrefixApplies(files, base, i + 1);
              return Outcome.Failed;
            case AlreadyExists =>
              alive := Insert(files[i].name);
              if !alive {
                assert Now() == next ==> LeftAt(files, st, next, i + 1);
                return Died;
              }
            case Executed =>
          }
        }
      }
      assert LeftAt(files, st, Now(), |files|);
      r := Done;
    }
  }

  lemma NextName(files: seq<File>, n: nat)
    requires n < |files|
    ensures Names(files, n + 1) == Names(files, n) + {files[n].name}
  {
  }

  lemma {:induction false} PrefixApplies(files: seq<File>, st: Store, k: nat)
    requires k <= |files| && !FirstApply(files, k, st)
    ensures !FirstApply(files, |files|, st)
    decreases |files| - k
  {
    if k < |files| {
      PrefixApplies(files, st, k + 1);
    }
  }

  // ---------------------------------------------------------------- deploying

  /** What a directory of migrations has to be like. */
  ghost predicate WellOrdered(files: seq<File>) {
    && (forall i, j :: 0 <= i < j < |files| ==>
          files[i].name != files[j].name && files[i].creates * files[j].creates == {})
    && (forall i :: 0 <= i < |files| ==> FileOk(files, i))
  }

  /** A file creates something, and needs only what the files before it create. */
  ghost predicate FileOk(files: seq<File>, i: nat)
    requires i < |files|
  {
    files[i].creates != {} && files[i].needs <= Objects(files, i)
  }

  ghost predicate DeathAt(files: seq<File>, sts: seq<Store>, n: int)
    requires 0 <= n < |sts| - 1
  {
    DiesAt(files, sts[n], sts[n + 1])
  }

  /** Runs that all die, one after the other. */
  ghost predicate Deploys(files: seq<File>, sts: seq<Store>) {
    && |sts| > 0
    && forall n :: 0 <= n < |sts| - 1 ==> DeathAt(files, sts, n)
  }

  lemma {:induction false} ObjectsOfFile(files: seq<File>, i: nat, n: nat)
    requires i < n <= |files|
    ensures files[i].creates <= Objects(files, n)
    decreases n
  {
    if i < n - 1 {
      ObjectsOfFile(files, i, n - 1);
    }
  }

  lemma {:induction false} ObjectsApart(files: seq<File>, n: nat, s: set<Object>)
    requires n <= |files| && forall i :: 0 <= i < n ==> files[i].creates * s == {}
    ensures Objects(files, n) * s == {}
    decreases n
  {
    if n > 0 {
      ObjectsApart(files, n - 1, s);
    }
  }

  lemma {:induction false} ObjectsWithin(files: seq<File>, n: nat, s: set<Object>)
    requires n <= |files| && forall i :: 0 <= i < n ==> files[i].creates <= s
    ensures Objects(files, n) <= s
    decreases n
  {
    if n > 0 {
      ObjectsWithin(files, n - 1, s);
    }
  }

  lemma NeedsMet(files: seq<File>, n: nat, s: set<Object>)
    requires WellOrdered(files) && n < |files| && Objects(files, |files|) <= s
    ensures files[n].needs <= s && files[n].creates <= s
  {
    forall i | 0 <= i < n
      ensures files[i].creates <= s
    {
      ObjectsOfFile(files, i, |files|);
    }
    ObjectsWithin(files, n, s);
    ObjectsOfFile(files, n, |files|);
    assert FileOk(files, n);
  }

  // ---------------------------------------------------------------- from an empty database

  /** The first k files have been applied, in order, and nothing else has happened. */
  function FreshAt(files: seq<File>, k: nat): Store
    requires k <= |files|
  {
    Store(Names(files, k), Objects(files, k), NameList(files, k))
  }

  lemma NextFile(files: seq<File>, k: nat)
    requires WellOrdered(files) && k < |files|
    ensures CanApply(files[k], FreshAt(files, k)) && ApplyOne(files[k], FreshAt(files, k)) == FreshAt(files, k + 1)
  {
    assert FileOk(files, k);
    NextName(files, k);
    ObjectsApart(files, k, files[k].creates);
  }

  lemma {:induction false} FreshProgress(files: seq<File>, k: nat, n: nat)
    requires WellOrdered(files) && k <= |files| && n <= |files|
    ensures FirstApply(files, n, FreshAt(files, k))
    ensures ApplyFirst(files, n, FreshAt(files, k)) == FreshAt(files, if n <= k then k else n)
    decreases n
  {
    if n > 0 {
      FreshProgress(files, k, n - 1);
      if n > k {
        NextFile(files, n - 1);
      }
    }
  }

  lemma FreshNeverFires(files: seq<File>, k: nat)
    requires k <= |files|
    ensures !BaselineFires(FreshAt(files, k))
  {
    if k > 0 {
      assert files[0].name in Names(files, k);
    }
  }

  lemma {:induction false} DeploysFresh(files: seq<File>, sts: seq<Store>, n: nat) returns (k: nat)
    requires WellOrdered(files) && Deploys(files, sts) && sts[0] == Store({}, {}, []) && n < |sts|
    ensures k <= |files| && sts[n] == FreshAt(files, k)
  {
    if n == 0 {
      k := 0;
    } else {
      var m := DeploysFresh(files, sts, n - 1);
      assert DeathAt(files, sts, n - 1);
      FreshNeverFires(files, m);
      var d: nat :| LeftAt(files, sts[n - 1], sts[n], d);
      FreshProgress(files, m, d);
      k := if d <= m then m else d;
    }
  }

  lemma {:induction false} NamesInOrder(files: seq<File>, k: nat, n: nat)
    requires k <= n <= |files|
    ensures NameList(files, k) <= NameList(files, n)
    decreases n
  {
    if k < n {
      NamesInOrder(files, k, n - 1);
    }
  }

  /** Starting from an empty database, any number of runs that die anywhere and
      then one that does not apply every file exactly once, in order, and the
      baseline branch is never taken. */
  lemma FreshDeploy(files: seq<File>, sts: seq<Store>, n: nat)
    requires WellOrdered(files) && Deploys(files, sts) && sts[0] == Store({}, {}, []) && n < |sts|
    ensures !BaselineFires(sts[n]) && sts[n].log <= NameList(files, |files|)
    ensures Succeeds(files, sts[n])
    ensures Migrated(files, sts[n]) == Store(Names(files, |files|), Objects(files, |files|), NameList(files, |files|))
  {
    var k := DeploysFresh(files, sts, n);
    FreshNeverFires(files, k);
    FreshProgress(files, k, |files|);
    NamesInOrder(files, k, |files|);
  }

  // ---------------------------------------------------------------- from a hand-built database

  /** Every object is there; some files may be recorded already; none was ever run. */
  ghost predicate HandBuilt(files: seq<File>, st: Store) {
    && BUSINESSES in st.schema && Objects(files, |files|) <= st.schema
    && st.recorded <= Names(files, |files|) && st.log == []
  }

  lemma HandBuiltFile(files: seq<File>, st: Store, n: nat)
    requires WellOrdered(files) && HandBuilt(files, st) && n < |files|
    ensures CanApply(files[n], st) && ApplyOne(files[n], st) == st.(recorded := st.recorded + {files[n].name})
  {
    assert FileOk(files, n);
    NeedsMet(files, n, st.schema);
    if files[n].name in st.recorded {
      assert st.recorded + {files[n].name} == st.recorded;
    }
    if o :| o in files[n].creates {
      assert o in files[n].creates * st.schema;
    }
  }

  /** A hand-built store once the first n files are recorded. */
  function WithNames(files: seq<File>, st: Store, n: nat): Store
    requires n <= |files|
  {
    st.(recorded := st.recorded + Names(files, n))
  }

  /** File n, when its turn comes, is only recorded. */
  ghost predicate OnlyRecorded(files: seq<File>, st: Store, n: nat)
    requires n < |files|
  {
    && CanApply(files[n], WithNames(files, st, n))
    && ApplyOne(files[n], WithNames(files, st, n)) == WithNames(files, st, n + 1)
  }

  lemma HandBuiltNext(files: seq<File>, st: Store, n: nat)
    requires WellOrdered(files) && HandBuilt(files, st) && n < |files|
    ensures OnlyRecorded(files, st, n)
  {
    NextName(files, n);
    assert Names(files, n) <= Names(files, |files|);
    HandBuiltFile(files, WithNames(files, st, n), n);
    assert st.recorded + Names(files, n) + {files[n].name} == st.recorded + Names(files, n + 1);
  }

  lemma {:induction false} RecordFirst(files: seq<File>, st: Store, n: nat)
    requires n <= |files| && forall i :: 0 <= i < n ==> OnlyRecorded(files, st, i)
    ensures FirstApply(files, n, st) && ApplyFirst(files, n, st) == WithNames(files, st, n)
    decreases n
  {
    if n == 0 {
      assert Names(files, 0) == {} && st.recorded + {} == st.recorded;
    } else {
      RecordFirst(files, st, n - 1);
      assert OnlyRecorded(files, st, n - 1);
    }
  }

  lemma HandBuiltProgress(files: seq<File>, st: Store, n: nat)
    requires WellOrdered(files) && HandBuilt(files, st) && n <= |files|
    ensures FirstApply(files, n, st) && ApplyFirst(files, n, st) == WithNames(files, st, n)
  {
    forall i | 0 <= i < n
      ensures OnlyRecorded(files, st, i)
    {
      HandBuiltNext(files, st, i);
    }
    RecordFirst(files, st, n);
  }

  lemma HandBuiltStep(files: seq<File>, st: Store, st': Store, k: nat)
    requires WellOrdered(files) && HandBuilt(files, st) && LeftAt(files, st, st', k)
    ensures HandBuilt(files, st') && st'.schema == st.schema
  {
    HandBuiltProgress(files, Baseline(files, st), k);
  }

  lemma {:induction false} DeploysHandBuilt(files: seq<File>, sts: seq<Store>, n: nat)
    requires WellOrdered(files) && Deploys(files, sts) && HandBuilt(files, sts[0]) && n < |sts|
    ensures HandBuilt(files, sts[n]) && sts[n].schema == sts[0].schema
  {
    if n > 0 {
      DeploysHandBuilt(files, sts, n - 1);
      assert DeathAt(files, sts, n - 1);
      var d: nat :| LeftAt(files, sts[n - 1], sts[n], d);
      HandBuiltStep(files, sts[n - 1], sts[n], d);
    }
  }

  /** On a schema built by hand, any number of runs that die anywhere, in the
      middle of the baseline too, and then one that does not, record every file,
      run none and leave the schema as it was. */
  lemma HandBuiltDeploy(files: seq<File>, sts: seq<Store>, n: nat)
    requires WellOrdered(files) && Deploys(files, sts) && HandBuilt(files, sts[0]) && n < |sts|
    ensures Succeeds(files, sts[n])
    ensures Migrated(files, sts[n]) == Store(Names(files, |files|), sts[0].schema, [])
  {
    DeploysHandBuilt(files, sts, n);
    HandBuiltProgress(files, Baseline(files, sts[n]), |files|);
  }

  // ---------------------------------------------------------------- from any database

  /** File f is executed by a run that starts its loop at base. */
  predicate Runs(f: File, base: Store) {
    f.name !in base.recorded && f.creates * base.schema == {}
  }

  /** What a run's loop has made of file f. */
  predicate Seen(f: File, base: Store, st: Store, done: bool) {
    && (f.name in st.recorded <==> f.name in base.recorded || done)
    && f.creates * st.schema == if done && Runs(f, base) then f.creates else f.creates * base.schema
  }

  lemma SeenOther(f: File, g: File, base: Store, st: Store, done: bool)
    requires f.name != g.name && f.creates * g.creates == {}
    requires Seen(f, base, st, done)
    ensures Seen(f, base, ApplyOne(g, st), done)
  {
    forall o
      ensures o in f.creates * (st.schema + g.creates) <==> o in f.creates * st.schema
    {
      assert o in f.creates && o in g.creates ==> o in f.creates * g.creates;
    }
  }

  lemma SeenSelf(f: File, base: Store, st: Store)
    requires Seen(f, base, st, false)
    ensures Seen(f, base, ApplyOne(f, st), true)
  {
    assert f.creates * (st.schema + f.creates) == f.creates;
  }

  lemma {:induction false} WhatIsThere(files: seq<File>, base: Store, n: nat, i: nat)
    requires WellOrdered(files) && n <= |files| && i < |files|
    ensures Seen(files[i], base, ApplyFirst(files, n, base), i < n)
    decreases n
  {
    if n > 0 {
      WhatIsThere(files, base, n - 1, i);
      if i == n - 1 {
        SeenSelf(files[i], base, ApplyFirst(files, n - 1, base));
      } else {
        FilesApart(files, i, n - 1);
        SeenOther(files[i], files[n - 1], base, ApplyFirst(files, n - 1, base), i < n);
      }
    }
  }

  lemma FilesApart(files: seq<File>, i: nat, j: nat)
    requires WellOrdered(files) && i < |files| && j < |files| && i != j
    ensures files[i].name != files[j].name && files[i].creates * files[j].creates == {}
  {
    if j < i {
      assert files[j].creates * files[i].creates == files[i].creates * files[j].creates;
    }
  }

  /** A complete run does not always leave the schema complete: a schema that
      somebody built by hand in part stays partial.  It leaves every object in
      place if and only if each file's objects were all there, or none were and
      the file is neither recorded nor baselined. */
  lemma CompleteIff(files: seq<File>, st: Store)
    requires WellOrdered(files)
    ensures Objects(files, |files|) <= Migrated(files, st).schema <==>
              forall i :: 0 <= i < |files| ==> files[i].creates <= st.schema || Runs(files[i], Baseline(files, st))
  {
    var last := Migrated(files, st);
    forall i | 0 <= i < |files|
      ensures files[i].creates <= last.schema <==> files[i].creates <= st.schema || Runs(files[i], Baseline(files, st))
      ensures files[i].creates <= Objects(files, |files|)
    {
      WhatIsThere(files, Baseline(files, st), |files|, i);
      ObjectsOfFile(files, i, |files|);
      Within(files[i].creates, last.schema);
      Within(files[i].creates, st.schema);
    }
    if forall i :: 0 <= i < |files| ==> files[i].creates <= last.schema {
      ObjectsWithin(files, |files|, last.schema);
    }
  }

  lemma Within(a: set<Object>, b: set<Object>)
    ensures a <= b <==> a * b == a
  {
    assert a * b <= b;
  }

  // ---------------------------------------------------------------- the repository's own migrations

  function Created(t: Table, indexes: set<string>): set<Object> {
    {TableOf(t)} + set i | i in indexes :: IndexOf(t, i)
  }

  /** migrations/001 to 011. */
  const SHIPPED: seq<File> := [
    File(1, Created(Businesses, {}), {}),
    File(2, Created(Customers, {"business_id"}), {BUSINESSES}),
    File(3, Created(Invoices, {"business_id", "customer_id"}), {BUSINESSES, TableOf(Customers)}),
    File(4, Created(ApiKeys, {"business_id"}), {BUSINESSES}),
    File(5, Created(PaymentAttempts, {"invoice_id", "business_id", "one_pending"}), {TableOf(Invoices), BUSINESSES}),
    File(6, Created(IdempotencyKeys, {"business_id"}), {BUSINESSES, TableOf(Invoices)}),
    File(7, Created(WebhookEvents, {"status", "created_at"}), {}),
    File(8, {ColumnOf(IdempotencyKeys, "request_hash")}, {TableOf(IdempotencyKeys)}),
    File(9, {ColumnOf(Businesses, "webhook_url"), ColumnOf(Businesses, "webhook_secret")}, {BUSINESSES}),
    File(10, Created(OutboundEvents, {"due", "business_created"}), {BUSINESSES}),
    File(11, {ColumnOf(ApiKeys, "key_prefix"), ColumnOf(ApiKeys, "name"), ColumnOf(ApiKeys, "last_used_at"),
              IndexOf(ApiKeys, "key_prefix")}, {TableOf(ApiKeys)})
  ]

  /** The position of the file that creates a table. */
  function Home(t: Table): nat {
    match t
    case Businesses => 0
    case Customers => 1
    case Invoices => 2
    case ApiKeys => 3
    case PaymentAttempts => 4
    case IdempotencyKeys => 5
    case WebhookEvents => 6
    case OutboundEvents => 9
  }

  /** The position of the file that creates an object. */
  function HomeOf(o: Object): nat {
    match o
    case TableOf(t) => Home(t)
    case ColumnOf(t, _) => if t.IdempotencyKeys? then 7 else if t.Businesses? then 8 else 10
    case IndexOf(t, i) => if t.ApiKeys? && i == "key_prefix" then 10 else Home(t)
  }

  lemma ShippedHomes(i: nat)
    requires i < |SHIPPED|
    ensures SHIPPED[i].name == i + 1
    ensures forall o :: o in SHIPPED[i].creates ==> HomeOf(o) == i
  {
  }

  lemma ShippedTables(t: Table)
    ensures Home(t) < |SHIPPED| && TableOf(t) in SHIPPED[Home(t)].creates
  {
  }

  lemma ShippedCreates(i: nat)
    requires i < |SHIPPED|
    ensures SHIPPED[i].creates != {}
  {
    assert i < 7 || i == 9 ==> exists t :: TableOf(t) in SHIPPED[i].creates;
  }

  lemma ShippedNeeds(i: nat)
    requires i < |SHIPPED|
    ensures forall o :: o in SHIPPED[i].needs ==> o.TableOf? && Home(o.t) < i
  {
    assert SHIPPED[i].needs <=
             {BUSINESSES, TableOf(Customers), TableOf(Invoices), TableOf(IdempotencyKeys), TableOf(ApiKeys)};
    assert TableOf(Customers) in SHIPPED[i].needs ==> i == 2;
    assert TableOf(Invoices) in SHIPPED[i].needs ==> i == 4 || i == 5;
  }

  /** The deployment results hold of the files the repository ships. */
  lemma ShippedIsWellOrdered()
    ensures WellOrdered(SHIPPED)
  {
    forall i, j | 0 <= i < j < |SHIPPED|
      ensures SHIPPED[i].name != SHIPPED[j].name && SHIPPED[i].creates * SHIPPED[j].creates == {}
    {
      ShippedHomes(i);
      ShippedHomes(j);
    }
    forall i | 0 <= i < |SHIPPED|
      ensures FileOk(SHIPPED, i)
    {
      ShippedNeeds(i);
      ShippedCreates(i);
      forall o | o in SHIPPED[i].needs
        ensures o in Objects(SHIPPED, i)
      {
        ShippedTables(o.t);
        ObjectsOfFile(SHIPPED, Home(o.t), i);
      }
    }
  }
}
