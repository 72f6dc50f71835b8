# Temperature logger and dashboard, modelled in Dafny

The system logs a DS18B20 1-Wire temperature sensor into InfluxDB and
shows the readings on a Dash web page.

The logger is `influx_insert.py`. It connects to the server and checks
whether the database `sensor_data` exists. If it does not, the logger
creates the database, a one-hour default retention policy `rp_1h`, and
three continuous queries. The queries roll the raw measurement `data_raw`
up into `autogen.mean_60s`, `autogen.mean_1h` and `autogen.mean_1d`. The
logger then switches to the database and loops forever:

- Read the sensor's `w1_slave` file. Take the tenth blank-separated token
  of its second line, drop `t=`, and divide the number by 1000.
- Write the reading as one `data_raw` point with a `temperature` field.
- Sleep until the next five-second mark after the start.

When the sensor file is missing, the reading is the marker `'inf'`. Nothing
is written, and, as the code stands, there is no sleep either. A malformed
file raises an exception, which ends the process.

The dashboard is `app.py`. It builds the InfluxQL text
`select * from <measurement> where time > now()-<period>`. From the
returned table it builds a chart description:

- one trace of the `temperature` column;
- a layout whose x range spans the first and last timestamps;
- a y range 4 degrees beyond the smallest and largest values;
- the sentinel ranges `[-1, 1]` when there is no data.

## Modules

- `common.dfy` (`Common`): `Option`, `Result` and the Python exceptions the
  core can raise (`IndexError`, `ValueError`, `KeyError`).
- `text.dfy` (`Text`): the text handling of the logger, which is
  `str.split(" ")` and `float()` on the integer text the driver writes,
  including the white space `float()` ignores around a number. The join
  and the decimal rendering of integers describe how the driver writes its
  file; they are there so that the reading can be proved against that
  format. It includes the split and join round trips, and the proof that
  `float()` reads the decimal text of an integer back.
- `sensor.dfy` (`Sensor`): `read_temperature` as a function of the file's
  lines, and the driver's two-line file format.
- `store.dfy` (`Store`): the server as a `Client` class. Its fields are the
  databases, retention policies, continuous queries and written points,
  plus the database chosen by `switch_database`. It also holds
  `check_if_db_exists` as a loop with an early return, `create_database`,
  `create_downsampling`, and the bootstrap step of `main`. The bootstrap
  is specified by the function `Bootstrapped` on a snapshot of the server.
- `sampler.dfy` (`Sampler`): the `while True` loop of `main`, run over a
  finite list of ticks. Each tick is the sensor file one iteration sees,
  plus the clock reading its sleep is computed from. The loop is proved
  against the function `Sampled`.
- `dashboard.dfy` (`Dashboard`): the query text of `read_db`, plus
  `get_layout` and `get_data` over a pandas-like table.

The sensor reading ignores the CRC verdict on the first line of the driver
file. `Sensor.ReadW1Slave` states that a file whose CRC check failed reads
the same as one whose check passed.

## Model

| member | source | states |
|---|---|---|
| Text.Split | influx_insert.py:37 | `split(" ")` gives one more piece than there are blanks, and no piece contains a blank |
| Text.JoinSplit | influx_insert.py:37 | joining the pieces of a split with the same separator gives back the line |
| Text.SplitJoin | influx_insert.py:37 | splitting a join of separator-free pieces gives back exactly those pieces, in order |
| Text.ParseSignedInt | influx_insert.py:39 | `float()` on the token less `t=`: white space around the text is ignored, an optional sign may lead, then at least one digit; anything else is the `ValueError` path. Its round trip is `Text.ParseIntToString` |
| Text.TrimLeft | influx_insert.py:39 | stripping leading white space leaves a suffix that starts with a non-space and removes only white space |
| Text.TrimRight | influx_insert.py:39 | stripping trailing white space leaves a prefix that ends with a non-space and removes only white space |
| Text.ParseIntToString | influx_insert.py:39 | `float()` of the decimal text of any integer, followed by any white space (the line's `\n`), is that integer |
| Sensor.ReadTemperature | influx_insert.py:28-42 | `read_temperature` on the file's lines: `'inf'` for a missing file, `IndexError` for a missing second line or tenth token, `ValueError` for a token whose tail is not a number, else the number divided by 1000. Its outcomes are stated by `Sensor.ReadOutcomes` and `Sensor.ReadW1Slave` |
| Sensor.ReadOutcomes | influx_insert.py:28-42 | `'inf'` exactly when the file is missing; `IndexError` exactly when there is no second line or it has fewer than ten tokens; `ValueError` exactly when the tenth token less two characters is not a number |
| Sensor.ReadToken | influx_insert.py:37-39 | the reading depends on line 2 only through its tenth blank-separated token, read from its third character on and divided by 1000 |
| Sensor.Line2Tokens | influx_insert.py:37 | the driver's second line splits into the nine scratchpad bytes followed by the `t=` token |
| Sensor.TemperatureToken | influx_insert.py:39 | dropping `t=` from the driver's token and reading the rest gives the thousandths of a degree |
| Sensor.ReadW1Slave | influx_insert.py:28-42 | every well-formed driver file reporting `milli` reads as `milli / 1000` degrees, whatever the bytes and whether or not the CRC matched |
| Store.RawPolicy | influx_insert.py:21 | the retention policy `rp_1h` on the database: duration 1 h, replication 1, the default policy |
| Store.DownsamplingChain | influx_insert.py:23-25 | the three continuous queries `cq_60s`, `cq_1h`, `cq_1d`, finest first, as structured records; their wiring is stated by `Store.DownsamplingChainWired` |
| Store.DownsamplingChainWired | influx_insert.py:19-25 | the three rollups form the chain `data_raw -> mean_60s -> mean_1h -> mean_1d`. Each means `temperature` into an `autogen` series with buckets of 60 s, 1 h and 1 d, each bucket dividing the next. No tier writes into its own or an earlier tier's source |
| Store.Client.constructor | influx_insert.py:50 | a client starts on the server's contents with no database selected |
| Store.Client.ShowDatabases | influx_insert.py:8 | `show databases` lists exactly the server's databases |
| Store.Client.CreateDatabase | influx_insert.py:16 | the name is appended to the databases; nothing else changes |
| Store.Client.CreateRetentionPolicy | influx_insert.py:21 | the policy is appended; nothing else changes |
| Store.Client.CreateContinuousQuery | influx_insert.py:23-25 | the query is appended; nothing else changes |
| Store.Client.SwitchDatabase | influx_insert.py:56 | the server is untouched and later writes go to the named database |
| Store.Client.WritePoints | influx_insert.py:73 | the points are appended, in order, tagged with the current database; nothing else changes |
| Store.CheckIfDbExists | influx_insert.py:7-12 | the scan returns true exactly when the name is among the listed databases |
| Store.CreateDatabase | influx_insert.py:15-16 | exactly one database entry is added |
| Store.CreateDownsampling | influx_insert.py:19-25 | the `rp_1h` policy (1 h, replication 1, default) and then the three rollups are appended, and nothing else changes |
| Store.Bootstrapped | influx_insert.py:52-54 | the server after the bootstrap: the database is present and the points are untouched, and a server that already had the database is returned unchanged. Otherwise the database, `rp_1h` and the three rollups are appended |
| Store.Bootstrap | influx_insert.py:51-54 | the server ends as `Bootstrapped` of its old contents: untouched when the database exists, otherwise with the database, its policy and its rollups added |
| Store.BootstrapIdempotent | influx_insert.py:51-54 | a second bootstrap changes nothing |
| Store.BootstrapAdds | influx_insert.py:51-54 | the database exists afterwards. Points are untouched. A new database gets exactly one entry, one `rp_1h` policy and the three rollups, appended to what was there. An existing one gets nothing |
| Store.FreshBootstrap | influx_insert.py:51-54 | on a server that never had the database, one or any number of bootstraps leave exactly one entry, one policy and the three rollups for it |
| Sampler.SleepMs | influx_insert.py:75 | the sleep is longer than zero and at most 5 s, and it wakes on the 5 s grid anchored at the start time |
| Sampler.NextGridPoint | influx_insert.py:75 | the wake-up time is the first grid point strictly after the clock reading: no grid point is skipped |
| Sampler.SamplePoint | influx_insert.py:64-71 | the point is `data_raw` with the single field `temperature` holding the reading |
| Sampler.Step | influx_insert.py:60-75 | one pass of the loop: after the process died nothing changes; a malformed file kills it; a missing file changes nothing; a reading is written and followed by its sleep |
| Sampler.Sampled | influx_insert.py:59-75 | every write is followed by exactly one sleep |
| Sampler.StepReadable | influx_insert.py:60-75 | one iteration on a readable file appends what the file delivers (one reading, or nothing for a missing file) and goes on |
| Sampler.WritesAvailable | influx_insert.py:59-75 | while no sensor file is malformed, the writes are exactly the available readings, in order, and the process keeps running |
| Sampler.SleepsOnGrid | influx_insert.py:75 | every sleep of every run is on the 5 s grid and at most 5 s long |
| Sampler.UnavailableSkipped | influx_insert.py:62 | an iteration with no sensor file writes nothing and does not sleep |
| Sampler.HaltedIsFinal | influx_insert.py:37-39 | once a malformed file has raised, later iterations never happen |
| Sampler.ReadingsAroundGap | influx_insert.py:59-75 | two readings around a missing-sensor iteration give two writes and two sleeps, in order |
| Sampler.Scenario | influx_insert.py:46-75 | readings of 21.5 and 22.0 degrees around a missing sensor, at 0.12 s, 5 s and 5.01 s, write the two readings and sleep 4.88 s and 4.99 s |
| Sampler.SampleLoop | influx_insert.py:58-75 | the loop's sleeps and halt are those of `Sampled`, and exactly the readings it writes are appended to the server's points in the `sensor_data` database |
| Sampler.RunLogger | influx_insert.py:46-75 | `main` leaves the server bootstrapped, switched to `sensor_data`, and holding the old points followed by the sampled readings |
| Dashboard.QueryText | app.py:19 | the text `read_db` sends: `select * from `, the measurement, ` where time > now()-`, the period. `Dashboard.ParseQueryText` proves it unambiguous |
| Dashboard.ParseQuery | app.py:19 | a query text read back gives a blank-free measurement and a period that rebuild the same text |
| Dashboard.ParseQueryText | app.py:19 | for a measurement without blanks the query text is unambiguous: both arguments come back verbatim |
| Dashboard.Min | app.py:34 | the column minimum is one of the values and no value is below it |
| Dashboard.Max | app.py:35 | the column maximum is one of the values and no value is above it |
| Dashboard.GetLayout | app.py:31-57 | `KeyError(item)` exactly when the table has data but no such column. With no table or an empty one, both ranges are `[-1, 1]`. Otherwise x runs from the first to the last index entry, and y is padded by 4 on each side of the values, with both bounds reached. The titles are the item, `time` and the y title |
| Dashboard.GetData | app.py:61-74 | `KeyError(item)` exactly when the column is missing. Otherwise the trace plots the column against the index, with name and mode `lines+markers` and all three colours set to `color` |
| Dashboard.LayoutHeight | app.py:34-35 | the y range of a chart with data is at least 8 wide |
| Dashboard.LayoutFramesTrace | app.py:31-74 | layout and trace of one column agree: the x range spans the trace's timestamps (all of them, for a time-ordered index), and every plotted value is at least 4 inside the y range |

## Left out

- The network connection to InfluxDB is replaced by the `Client` class holding the server's contents. Connection failures and server-side errors are not modelled.
- The server's own behaviour is not modelled: evaluating continuous queries, expiring data under `rp_1h`, the implicit `autogen` policy, and assigning write timestamps. The model records what the logger registers and writes, not what the server later computes.
- The InfluxQL statements of influx_insert.py:21-25 are kept as structured records (`RetentionPolicy`, `ContinuousQuery`), one field per part of the statement. Their text rendering is not modelled.
- `read_db` (app.py:14-27) is modelled only through its query text. The `DataFrameClient` call, picking the first series of the chunked result, and the `Europe/Berlin` time-zone conversion are I/O and library behaviour. Timestamps are integer seconds.
- The Dash page, the static-file route, the one-minute interval callback `update_graph_scatter` and the server start (app.py:78-129) are UI wiring around `read_db`, `get_data` and `get_layout`.
- Sensor.ReadTemperature: the sensor path and `os.path.isfile` become an `Option` of the file's lines. `readlines` is taken to keep each line's `\n`, as Python's does.
- Text.ParseSignedInt: `float()` is modelled only on optionally signed integer text with surrounding ASCII white space, which is all the driver writes. Decimal points, exponents, `inf`/`nan`, underscores and Unicode white space are not modelled. Any other text is the `ValueError` path.
- Sampler.SleepMs: time is integer milliseconds rather than floating-point seconds, so the rounding of `time.time()` and of `%` on floats is not modelled.
- Sampler.SampleLoop: the `while True` loop runs over a finite list of ticks. The clock readings and sensor files come from the ticks rather than from the real clock and file system, and the sleeps are recorded, not slept.
- Store.Client.CreateDatabase: appends the name even when it is already listed, whereas the server leaves an existing database as it is. `main` creates the database only when the existence check fails (influx_insert.py:52-53), so no stated property depends on the difference.
- Store.Client.WritePoints: requires a database to have been selected. A write before `switch_database` is not modelled; `main` always switches first (influx_insert.py:56).
- Dashboard.GetData: takes a table, not `None`. `read_db` never returns `None`, so a `None` table never reaches `get_data`.
- Dashboard.Min and Dashboard.Max: column values are reals. The NaN-skipping of pandas' `min`/`max` is not modelled.
