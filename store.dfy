/** The time-series store as the logger drives it (influx_insert.py:7-25,
    52-56): a client object standing for an InfluxDB server, the existence
    check on the database, and the one-time setup that gives the raw data a
    one-hour retention policy and registers the chain of continuous
    queries `data_raw -> mean_60s -> mean_1h -> mean_1d`. The server's own
    evaluation of the queries is not part of the model; what the code
    decides is what gets registered, and when. */
module Store {
  import opened Common
  import Text

  // ---------------------------------------------------------------------
  // What the code registers

  datatype TimeUnit = Second | Hour | Day

  /** An InfluxQL duration literal such as `60s`, `1h` or `1d`. */
  datatype Duration = Duration(amount: nat, unit: TimeUnit)

  function Seconds(d: Duration): nat
  {
    d.amount * match d.unit case Second => 1 case Hour => 3600 case Day => 86400
  }

  datatype RetentionPolicy = RetentionPolicy(
    name: string,
    database: string,
    duration: Duration,
    replication: nat,
    isDefault: bool)

  /** A measurement, optionally qualified by a retention policy
      (`autogen.mean_60s`); unqualified means the database's default policy. */
  datatype SeriesRef = SeriesRef(policy: Option<string>, measurement: string)

  /** The parts of `create continuous query <name> on <database> begin
      select <aggregate>(<field>) as <alias> into <into> from <source>
      group by time(<bucket>) end`. */
  datatype ContinuousQuery = ContinuousQuery(
    name: string,
    database: string,
    aggregate: string,
    field: string,
    alias: string,
    into: SeriesRef,
    source: SeriesRef,
    bucket: Duration)

  /** One point as the sampler writes it: a measurement and its fields. */
  datatype Point = Point(measurement: string, fields: map<string, real>)

  /** A point as the server holds it, in the database the client had
      switched to. */
  datatype StoredPoint = StoredPoint(database: string, point: Point)

  /** Everything the server holds that the logger touches. */
  datatype Snapshot = Snapshot(
    databases: seq<string>,
    policies: seq<RetentionPolicy>,
    continuousQueries: seq<ContinuousQuery>,
    points: seq<StoredPoint>)

  const RawMeasurement := "data_raw"
  const Field := "temperature"
  const Autogen := Some("autogen")

  /** Where the sampler writes: `data_raw` under the default policy. */
  const RawSeries := SeriesRef(None, RawMeasurement)

  /** Raw data is kept for one hour; being the default policy, it is the one
      unqualified writes to `data_raw` land in. */
  function RawPolicy(db: string): RetentionPolicy
  {
    RetentionPolicy("rp_1h", db, Duration(1, Hour), 1, true)
  }

  function MeanQuery(name: string, db: string, into: string, source: SeriesRef, bucket: Duration): ContinuousQuery
  {
    ContinuousQuery(name, db, "mean", Field, Field, SeriesRef(Autogen, into), source, bucket)
  }

  /** The three rollups, finest first. */
  function DownsamplingChain(db: string): seq<ContinuousQuery>
  {
    [ MeanQuery("cq_60s", db, "mean_60s", RawSeries, Duration(60, Second)),
      MeanQuery("cq_1h", db, "mean_1h", SeriesRef(Autogen, "mean_60s"), Duration(1, Hour)),
      MeanQuery("cq_1d", db, "mean_1d", SeriesRef(Autogen, "mean_1h"), Duration(1, Day)) ]
  }

  // ---------------------------------------------------------------------
  // The chain is wired correctly

  /** Each query reads what the previous one writes; the first reads `origin`. */
  predicate Chained(cqs: seq<ContinuousQuery>, origin: SeriesRef)
  {
    && |cqs| > 0
    && cqs[0].source == origin
    && forall i :: 0 < i < |cqs| ==> cqs[i].source == cqs[i - 1].into
  }

  /** The rollups form the chain `data_raw -> mean_60s -> mean_1h ->
      mean_1d` with buckets of 60 s, 1 h and 1 d, each bucket a whole
      multiple of the one before; every tier means `temperature` into an
      `autogen` series, and no tier writes into the raw series or into any
      tier's source, so the chain has no cycle. */
  lemma DownsamplingChainWired(db: string)
    ensures var chain := DownsamplingChain(db);
      && |chain| == 3
      && Chained(chain, RawSeries)
      && chain[0].into.measurement == "mean_60s"
      && chain[1].into.measurement == "mean_1h"
      && chain[2].into.measurement == "mean_1d"
      && Seconds(chain[0].bucket) == 60 && Seconds(chain[1].bucket) == 3600 && Seconds(chain[2].bucket) == 86400
      && (forall i :: 0 < i < |chain| ==> Seconds(chain[i].bucket) % Seconds(chain[i - 1].bucket) == 0)
      && (forall i :: 0 <= i < |chain| ==>
            chain[i].database == db && chain[i].aggregate == "mean" && chain[i].field == Field
            && chain[i].into.policy == Autogen && chain[i].into != RawSeries)
      && (forall i, j :: 0 <= i <= j < |chain| ==> chain[j].into != chain[i].source)
  {
  }

  // ---------------------------------------------------------------------
  // Bootstrap as a function of the server's contents

  /** What `main` does to the server before sampling (influx_insert.py:52-54):
      a database that already exists is left alone; otherwise it is created
      with its retention policy and rollups. */
  function Bootstrapped(s: Snapshot, db: string): (t: Snapshot)
    ensures db in t.databases && t.points == s.points
    ensures db in s.databases ==> t == s
  {
    if db in s.databases then s
    else Snapshot(s.databases + [db], s.policies + [RawPolicy(db)], s.continuousQueries + DownsamplingChain(db), s.points)
  }

  /** The elements of `xs` that `keep` accepts, in order. */
  function Filter<T>(xs: seq<T>, keep: T -> bool): seq<T>
  {
    if xs == [] then []
    else (if keep(xs[0]) then [xs[0]] else []) + Filter(xs[1..], keep)
  }

  lemma {:induction false} FilterAppend<T>(xs: seq<T>, ys: seq<T>, keep: T -> bool)
    ensures Filter(xs + ys, keep) == Filter(xs, keep) + Filter(ys, keep)
  {
    if xs != [] {
      assert (xs + ys)[0] == xs[0];
      assert (xs + ys)[1..] == xs[1..] + ys;
      FilterAppend(xs[1..], ys, keep);
      var first := if keep(xs[0]) then [xs[0]] else [];
      assert Filter(xs + ys, keep) == first + (Filter(xs[1..], keep) + Filter(ys, keep));
    } else {
      assert xs + ys == ys;
    }
  }

  function PoliciesOn(ps: seq<RetentionPolicy>, db: string): seq<RetentionPolicy>
  {
    Filter(ps, (p: RetentionPolicy) => p.database == db)
  }

  function QueriesOn(cqs: seq<ContinuousQuery>, db: string): seq<ContinuousQuery>
  {
    Filter(cqs, (q: ContinuousQuery) => q.database == db)
  }

  /** Running the setup again changes nothing. */
  lemma BootstrapIdempotent(s: Snapshot, db: string)
    ensures Bootstrapped(Bootstrapped(s, db), db) == Bootstrapped(s, db)
  {
  }

  /** What the setup adds for a database: nothing when it exists already;
      otherwise one database entry, the raw retention policy and the three
      rollups, appended to whatever that database had. Points are never
      touched. */
  lemma BootstrapAdds(s: Snapshot, db: string)
    ensures var t := Bootstrapped(s, db);
      && db in t.databases
      && t.points == s.points
      && multiset(t.databases)[db] == (if db in s.databases then multiset(s.databases)[db] else 1)
      && PoliciesOn(t.policies, db) ==
           (if db in s.databases then PoliciesOn(s.policies, db) else PoliciesOn(s.policies, db) + [RawPolicy(db)])
      && QueriesOn(t.continuousQueries, db) ==
           (if db in s.databases then QueriesOn(s.continuousQueries, db) else QueriesOn(s.continuousQueries, db) + DownsamplingChain(db))
  {
    if db !in s.databases {
      assert multiset(s.databases)[db] == 0;
      FilterAppend(s.policies, [RawPolicy(db)], (p: RetentionPolicy) => p.database == db);
      FilterAppend(s.continuousQueries, DownsamplingChain(db), (q: ContinuousQuery) => q.database == db);
      var chain := DownsamplingChain(db);
      var onDb := (q: ContinuousQuery) => q.database == db;
      assert Filter(chain, onDb) == chain by {
        assert chain[1..][1..][1..] == [];
        assert Filter(chain[1..][1..], onDb) == [chain[2]];
        assert Filter(chain[1..], onDb) == [chain[1], chain[2]];
      }
    }
  }

  /** On a server that has never seen the database, one or any number of
      setups leave exactly one database entry, exactly the one-hour default
      retention policy and exactly the three rollups for it. */
  lemma FreshBootstrap(s: Snapshot, db: string)
    requires db !in s.databases && PoliciesOn(s.policies, db) == [] && QueriesOn(s.continuousQueries, db) == []
    ensures var t := Bootstrapped(s, db);
      && t == Bootstrapped(t, db)
      && multiset(t.databases)[db] == 1
      && PoliciesOn(t.policies, db) == [RawPolicy(db)]
      && QueriesOn(t.continuousQueries, db) == DownsamplingChain(db)
  {
    BootstrapAdds(s, db);
  }

  // ---------------------------------------------------------------------
  // The client

  /** An `InfluxDBClient` together with the server state it reaches. */
  class Client {
    var databases: seq<string>
    var policies: seq<RetentionPolicy>
    var continuousQueries: seq<ContinuousQuery>
    var points: seq<StoredPoint>
    /** The database chosen by `switch_database`, used by writes. */
    var database: Option<string>

    function Contents(): Snapshot
      reads this
    {
      Snapshot(databases, policies, continuousQueries, points)
    }

    constructor (server: Snapshot)
      ensures Contents() == server && database == None
    {
      databases := server.databases;
      policies := server.policies;
      continuousQueries := server.continuousQueries;
      points := server.points;
      database := None;
    }

    /** `show databases` */
    method ShowDatabases() returns (names: seq<string>)
      ensures names == databases
    {
      names := databases;
    }

    /** `create_database`, as the logger relies on it: the name is appended.
        The server would leave an already existing database as it is; the
        logger calls this only for a database it did not find, so the
        difference is never exercised. */
    method CreateDatabase(name: string)
      modifies this
      ensures Contents() == old(Contents()).(databases := old(databases) + [name])
      ensures database == old(database)
    {
      databases := databases + [name];
    }

    /** `create retention policy ...` */
    method CreateRetentionPolicy(rp: RetentionPolicy)
      modifies this
      ensures Contents() == old(Contents()).(policies := old(policies) + [rp])
      ensures database == old(database)
    {
      policies := policies + [rp];
    }

    /** `create continuous query ...` */
    method CreateContinuousQuery(cq: ContinuousQuery)
      modifies this
      ensures Contents() == old(Contents()).(continuousQueries := old(continuousQueries) + [cq])
      ensures database == old(database)
    {
      continuousQueries := continuousQueries + [cq];
    }

    method SwitchDatabase(name: string)
      modifies this
      ensures Contents() == old(Contents()) && database == Some(name)
    {
      database := Some(name);
    }

    /** `write_points`: the points land, in order, in the current database. */
    method WritePoints(ps: seq<Point>)
      requires database.Some?
      modifies this
      ensures database == old(database)
      ensures Contents() == old(Contents()).(points := old(points) + Stored(database.value, ps))
    {
      points := points + Stored(database.value, ps);
    }
  }

  function Stored(db: string, ps: seq<Point>): (r: seq<StoredPoint>)
    ensures |r| == |ps| && forall i :: 0 <= i < |ps| ==> r[i] == StoredPoint(db, ps[i])
  {
    seq(|ps|, i requires 0 <= i < |ps| => StoredPoint(db, ps[i]))
  }

  // ---------------------------------------------------------------------
  // The operations of influx_insert.py on a client

  /** `check_if_db_exists`: a scan of the listed names for an exact match,
      returning at the first one. */
  method CheckIfDbExists(client: Client, dbName: string) returns (found: bool)
    ensures found <==> dbName in client.databases
  {
    var dbList := client.ShowDatabases();
    for i := 0 to |dbList|
      invariant dbName !in dbList[..i]
    {
      if dbList[i] == dbName {
        return true;
      }
    }
    return false;
  }

  /** `create_database` */
  method CreateDatabase(client: Client, dbName: string)
    modifies client
    ensures client.Contents() == old(client.Contents()).(databases := old(client.databases) + [dbName])
    ensures client.database == old(client.database)
  {
    client.CreateDatabase(dbName);
  }

  /** `create_downsampling`: the raw retention policy, then the three rollups. */
  method CreateDownsampling(client: Client, dbName: string)
    modifies client
    ensures client.Contents() == old(client.Contents()).(
      policies := old(client.policies) + [RawPolicy(dbName)],
      continuousQueries := old(client.continuousQueries) + DownsamplingChain(dbName))
    ensures client.database == old(client.database)
  {
    client.CreateRetentionPolicy(RawPolicy(dbName));
    var chain := DownsamplingChain(dbName);
    client.CreateContinuousQuery(chain[0]);
    client.CreateContinuousQuery(chain[1]);
    client.CreateContinuousQuery(chain[2]);
    assert [chain[0], chain[1], chain[2]] == chain;
  }

  /** The setup step of `main`: create the database and its downsampling
      only when the existence check fails. */
  method Bootstrap(client: Client, dbName: string)
    modifies client
    ensures client.Contents() == Bootstrapped(old(client.Contents()), dbName)
    ensures client.database == old(client.database)
  {
    var present := CheckIfDbExists(client, dbName);
    if !present {
      CreateDatabase(client, dbName);
      CreateDownsampling(client, dbName);
    }
  }
}
