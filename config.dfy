/** CollectorConfig: the options read from the configuration file, checked
    once when the exporter starts. */
module Config {
  import opened Values

  /** The credential entries that must all be present and non-null, in the
      order they are checked. */
  const CREDENTIAL_KEYS: seq<string> := ["access_key_id", "access_key_secret", "region_id"]

  const DEFAULT_PAGE_SIZE: int := 20
  const DEFAULT_RATE_LIMIT: int := 10

  /** A top-level section of the YAML file: not written, written with a
      null value, or given. */
  datatype Section<+T> = Absent | Null | Given(contents: T)

  /** The parsed configuration file. A credential entry maps to None when
      the YAML value is null and is absent when the key is not written. */
  datatype FileOptions = FileOptions(
    server: Section<map<string, Scalar>>,
    credential: Section<map<string, Option<string>>>,
    performanceList: Option<map<string, Option<seq<string>>>>)

  datatype CollectorConfig = CollectorConfig(
    server: Section<map<string, Scalar>>,
    credential: map<string, Option<string>>,
    performanceList: map<string, Option<seq<string>>>,
    pageSize: int,
    rateLimit: int)

  /** Every credential entry is present and not null; an empty string counts as set. */
  ghost predicate CredentialComplete(credential: map<string, Option<string>>)
  {
    forall i :: 0 <= i < |CREDENTIAL_KEYS| ==>
      CREDENTIAL_KEYS[i] in credential && credential[CREDENTIAL_KEYS[i]].Some?
  }

  /** The first problem met when the entries named by `keys` are checked in
      order with a short-circuiting `or`: a missing key raises KeyError, a
      null value the configuration error. */
  function FirstCredentialProblem(credential: map<string, Option<string>>, keys: seq<string>): (problem: Option<Error>)
    ensures problem.None? <==>
      forall i :: 0 <= i < |keys| ==> keys[i] in credential && credential[keys[i]].Some?
    ensures problem.Some? ==>
      exists i :: 0 <= i < |keys|
        && (forall j :: 0 <= j < i ==> keys[j] in credential && credential[keys[j]].Some?)
        && (keys[i] !in credential ==> problem.value == MissingKey(keys[i]))
        && (keys[i] in credential ==> credential[keys[i]].None? && problem.value == CredentialIncomplete)
  {
    if |keys| == 0 then None
    else if keys[0] !in credential then Some(MissingKey(keys[0]))
    else if credential[keys[0]].None? then Some(CredentialIncomplete)
    else
      var rest := FirstCredentialProblem(credential, keys[1..]);
      assert rest.None? <==> forall i :: 1 <= i < |keys| ==> keys[i] in credential && credential[keys[i]].Some? by {
        forall i | 1 <= i < |keys| ensures keys[i] == keys[1..][i - 1] { }
      }
      if rest.Some? then
        var i :| 0 <= i < |keys[1..]|
          && (forall j :: 0 <= j < i ==> keys[1..][j] in credential && credential[keys[1..][j]].Some?)
          && (keys[1..][i] !in credential ==> rest.value == MissingKey(keys[1..][i]))
          && (keys[1..][i] in credential ==> credential[keys[1..][i]].None? && rest.value == CredentialIncomplete);
        assert forall j :: 0 <= j < i + 1 ==> keys[j] in credential && credential[keys[j]].Some? by {
          forall j | 1 <= j < i + 1 ensures keys[j] == keys[1..][j - 1] { }
        }
        rest
      else rest
  }

  /** `CollectorConfig(file_opts, command_args)`: reads the `server`,
      `credential` and `performance_list` sections in that order (an absent
      one raises KeyError), keeps them, and fails, before anything else
      runs, when the credential section is null or incomplete. */
  function NewCollectorConfig(opts: FileOptions, pageSize: int, rateLimit: int): (r: Result<CollectorConfig>)
    ensures r.Ok? <==>
      && !opts.server.Absent? && opts.credential.Given? && opts.performanceList.Some?
      && CredentialComplete(opts.credential.contents)
    ensures r.Ok? ==>
      && r.value.credential == opts.credential.contents && r.value.performanceList == opts.performanceList.value
      && r.value.server == opts.server && r.value.pageSize == pageSize && r.value.rateLimit == rateLimit
    ensures opts.server.Absent? ==> r == Err(MissingKey("server"))
    ensures !opts.server.Absent? && opts.credential.Absent? ==> r == Err(MissingKey("credential"))
    ensures !opts.server.Absent? && !opts.credential.Absent? && opts.performanceList.None? ==>
      r == Err(MissingKey("performance_list"))
    ensures !opts.server.Absent? && opts.credential.Null? && opts.performanceList.Some? ==>
      r == Err(NullSection("credential"))
    ensures r.Err? && opts.credential.Given? ==>
      r.error == CredentialIncomplete || r.error.MissingKey?
  {
    if opts.server.Absent? then Err(MissingKey("server"))
    else if opts.credential.Absent? then Err(MissingKey("credential"))
    else if opts.performanceList.None? then Err(MissingKey("performance_list"))
    else if opts.credential.Null? then Err(NullSection("credential"))
    else match FirstCredentialProblem(opts.credential.contents, CREDENTIAL_KEYS)
      case Some(e) => Err(e)
      case None => Ok(CollectorConfig(opts.server, opts.credential.contents, opts.performanceList.value, pageSize, rateLimit))
  }

  /** A credential whose three entries are empty strings is accepted. */
  lemma EmptyStringsAccepted(opts: FileOptions)
    requires opts.server.Given? && opts.performanceList.Some?
    requires opts.credential == Given(map["access_key_id" := Some(""), "access_key_secret" := Some(""), "region_id" := Some("")])
    ensures NewCollectorConfig(opts, DEFAULT_PAGE_SIZE, DEFAULT_RATE_LIMIT).Ok?
  {
    assert CredentialComplete(opts.credential.contents) by {
      forall i | 0 <= i < |CREDENTIAL_KEYS|
        ensures CREDENTIAL_KEYS[i] in opts.credential.contents && opts.credential.contents[CREDENTIAL_KEYS[i]].Some?
      {
        assert i == 0 || i == 1 || i == 2;
      }
    }
  }

  /** A null region id stops construction whatever the other two entries are. */
  lemma NullRegionRejected(opts: FileOptions)
    requires opts.credential.Given? && "region_id" in opts.credential.contents && opts.credential.contents["region_id"].None?
    ensures NewCollectorConfig(opts, DEFAULT_PAGE_SIZE, DEFAULT_RATE_LIMIT).Err?
  {
    assert CREDENTIAL_KEYS[2] == "region_id";
  }
}
