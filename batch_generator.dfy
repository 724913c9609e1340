/**
 * The deterministic structure of simulation/batch_generator.py: the
 * one-minute timestamp grid and the clip of the AF rate in `generate_data`,
 * and the destination path built by `upload_to_gcs`. The normal draws are
 * inputs; instants are whole microseconds, the resolution of Python's
 * `datetime`.
 */
module BatchGenerator {
  import opened Metrics

  /** One minute in microseconds (`timedelta(minutes=1)`). */
  const Minute: int := 60 * 1000 * 1000

  /** `[start + timedelta(minutes=i) for i in range(n)]` */
  function Timestamps(start: int, n: nat): (stamps: seq<int>)
    ensures |stamps| == n
    ensures n > 0 ==> stamps[0] == start
    ensures forall i :: 0 <= i < n - 1 ==> stamps[i + 1] - stamps[i] == Minute
  {
    seq(n, i => start + i * Minute)
  }

  /** Consecutive one-minute steps make the timestamps strictly increasing. */
  lemma TimestampsIncrease(start: int, n: nat, i: nat, j: nat)
    requires i < j < n
    ensures Timestamps(start, n)[i] < Timestamps(start, n)[j]
  {
  }

  /** `np.clip(x, 0, 40)` */
  function ClipAfRate(x: real): (r: real)
    ensures 0.0 <= r <= 40.0
    ensures 0.0 <= x <= 40.0 ==> r == x
    ensures x < 0.0 ==> r == 0.0
    ensures x > 40.0 ==> r == 40.0
  {
    if x < 0.0 then 0.0 else if x > 40.0 then 40.0 else x
  }

  /** The normal draws of one batch, one sequence per generated column. */
  datatype Draws = Draws(kilnTemp: seq<real>, millPower: seq<real>, afRate: seq<real>,
                         freeLime: seq<real>, co2: seq<real>)

  /** The generated table, column by column. */
  datatype Frame = Frame(timestamp: seq<int>, kilnTempC: seq<real>, millPowerKW: seq<real>,
                         afRatePercent: seq<real>, clinkerFreeLimePercent: seq<real>,
                         co2EmissionKgpt: seq<real>)
  {
    /** The column names, in the order the table lays them out. */
    static function Columns(): seq<string> {
      [TimestampKey, KilnTempKey, MillPowerKey, AfRateKey, FreeLimeKey, Co2EmissionKey]
    }

    predicate HasRows(n: nat) {
      && |timestamp| == n && |kilnTempC| == n && |millPowerKW| == n
      && |afRatePercent| == n && |clinkerFreeLimePercent| == n && |co2EmissionKgpt| == n
    }
  }

  /**
   * `generate_data(n)`: n rows one minute apart from `start`, the draws in
   * their columns, the AF-rate draws clipped to [0, 40].
   */
  function GenerateData(n: nat, start: int, draws: Draws): (frame: Frame)
    requires |draws.kilnTemp| == n && |draws.millPower| == n && |draws.afRate| == n
    requires |draws.freeLime| == n && |draws.co2| == n
    ensures frame.HasRows(n)
    ensures frame.timestamp == Timestamps(start, n)
    ensures forall i :: 0 <= i < n ==> 0.0 <= frame.afRatePercent[i] <= 40.0
    ensures forall i :: 0 <= i < n ==> frame.afRatePercent[i] == ClipAfRate(draws.afRate[i])
    ensures frame.kilnTempC == draws.kilnTemp && frame.millPowerKW == draws.millPower
    ensures frame.clinkerFreeLimePercent == draws.freeLime && frame.co2EmissionKgpt == draws.co2
  {
    Frame(Timestamps(start, n), draws.kilnTemp, draws.millPower,
          seq(n, i requires 0 <= i < n => ClipAfRate(draws.afRate[i])),
          draws.freeLime, draws.co2)
  }

  /** The warehouse load schema's field names (services/cloud/bigquery_client.py). */
  const LoadSchemaFields: seq<string> :=
    ["timestamp", "kiln_temp_C", "mill_power_kW", "AF_rate_percent", "clinker_free_lime_percent", "CO2_emission_kgpt"]

  lemma ColumnsMatchLoadSchema()
    ensures Frame.Columns() == LoadSchemaFields
  {
  }

  // ---------------------------------------------------------------------------
  // Upload destination
  // ---------------------------------------------------------------------------

  /** `os.path.basename` for POSIX paths: the text after the last '/'. */
  function Basename(path: string): (name: string)
    ensures '/' !in name
    ensures |name| <= |path| && path[|path| - |name|..] == name
    ensures |name| < |path| ==> path[|path| - |name| - 1] == '/'
    decreases |path|
  {
    if |path| == 0 || path[|path| - 1] == '/' then ""
    else
      var init := path[..|path| - 1];
      var rest := Basename(init);
      assert path == init + [path[|path| - 1]];
      assert path[|path| - |rest| - 1..] == init[|init| - |rest|..] + [path[|path| - 1]];
      rest + [path[|path| - 1]]
  }

  /** `f"{dest_prefix}/{os.path.basename(local_file)}"` */
  function DestinationBlob(destPrefix: string, localFile: string): (blob: string)
    ensures destPrefix + "/" <= blob
    ensures Basename(blob) == Basename(localFile)
  {
    BasenameAfterSlash(destPrefix, Basename(localFile));
    destPrefix + "/" + Basename(localFile)
  }

  /** The URI `upload_to_gcs` returns: the bucket, then the destination blob. */
  function UploadUri(localFile: string, bucketName: string, destPrefix: string): (uri: string)
    ensures "gs://" + bucketName + "/" <= uri
    ensures uri[|"gs://" + bucketName + "/"|..] == DestinationBlob(destPrefix, localFile)
  {
    "gs://" + bucketName + "/" + DestinationBlob(destPrefix, localFile)
  }

  /** The basename of `dir + "/" + name` is `name` when `name` has no '/'. */
  lemma {:induction false} BasenameAfterSlash(dir: string, name: string)
    requires '/' !in name
    ensures Basename(dir + "/" + name) == name
    decreases |name|
  {
    var path := dir + "/" + name;
    if |name| == 0 {
      assert path[|path| - 1] == '/';
    } else {
      var last := name[|name| - 1];
      assert path[..|path| - 1] == dir + "/" + name[..|name| - 1];
      BasenameAfterSlash(dir, name[..|name| - 1]);
      assert name == name[..|name| - 1] + [last];
    }
  }

  /**
   * The URI starts with the bucket and prefix and names the uploaded file by
   * the local file's basename: taking the basename of the URI gives it back.
   */
  lemma UploadUriShape(localFile: string, bucketName: string, destPrefix: string)
    ensures "gs://" + bucketName + "/" + destPrefix + "/" <= UploadUri(localFile, bucketName, destPrefix)
    ensures Basename(UploadUri(localFile, bucketName, destPrefix)) == Basename(localFile)
  {
    var dir := "gs://" + bucketName + "/" + destPrefix;
    var name := Basename(localFile);
    var head := "gs://" + bucketName + "/";
    var blob := DestinationBlob(destPrefix, localFile);
    assert UploadUri(localFile, bucketName, destPrefix) == head + blob;
    assert blob == destPrefix + "/" + name;
    Regroup(head, destPrefix, name);
    BasenameAfterSlash(dir, name);
  }

  /** Regrouping the pieces of the URI around its last '/'. */
  lemma Regroup(head: string, destPrefix: string, name: string)
    ensures head + (destPrefix + "/" + name) == (head + destPrefix + "/") + name
  {
  }
}
