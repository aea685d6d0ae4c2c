/**
 * The team configuration of `VOCAnalyzer`: an ordered mapping from team name
 * to its settings, of which only the keyword list is used, and the
 * `_load_config` rule that a file that cannot be read or parsed gives `{}`.
 */
module Configuration {
  import opened Wrappers

  /** A team's settings; `keywords` is `None` when the key is absent. */
  datatype TeamInfo = TeamInfo(keywords: Option<seq<string>>)

  /** One entry of the `teams` mapping, in document order. */
  datatype Team = Team(name: string, info: TeamInfo)

  /** The top-level configuration mapping; `teams` is `None` when the key is absent. */
  datatype Config = Config(teams: Option<seq<Team>>)

  /** What a YAML document parses to: a mapping, or anything else (`None` for an empty file, a list, a scalar). */
  datatype Document = NotMapping | Mapping(config: Config)

  /** The outcome of opening and parsing the configuration file. */
  datatype Source = Unreadable | Malformed | Parsed(document: Document)

  /** The empty mapping `{}`. */
  const Empty: Config := Config(None)

  /** `info.get('keywords', [])`. */
  function KeywordsOf(t: Team): (keywords: seq<string>)
    ensures t.info.keywords.None? ==> keywords == []
  {
    t.info.keywords.GetOr([])
  }

  /** `config.get('teams', {}).items()`. */
  function Teams(c: Config): (teams: seq<Team>)
    ensures c.teams.None? ==> teams == []
  {
    c.teams.GetOr([])
  }

  /**
   * `_load_config` as written: an unreadable or malformed file gives `{}`,
   * otherwise whatever the document parses to, mapping or not.
   */
  function LoadConfigAsWritten(src: Source): (d: Document)
    ensures src.Parsed? ==> d == src.document
    ensures !src.Parsed? ==> d == Mapping(Empty)
  {
    match src
    case Parsed(d) => d
    case _ => Mapping(Empty)
  }

  /** `config.get('teams', {})` on a parsed document: raises `AttributeError` unless it is a mapping. */
  function TeamsAsWritten(d: Document): (r: Result<seq<Team>, string>)
    ensures r.Failure? <==> d.NotMapping?
  {
    match d
    case NotMapping => Failure("AttributeError: object has no attribute 'get'")
    case Mapping(c) => Success(Teams(c))
  }

  /** An empty configuration file slips past the fallback and makes the report raise. */
  lemma EmptyFileRaisesAsWritten()
    ensures TeamsAsWritten(LoadConfigAsWritten(Parsed(NotMapping))).Failure?
  {
  }

  /**
   * `_load_config` as intended: every configuration that is not a mapping,
   * including one that cannot be read or parsed, degrades to `{}`.
   */
  function LoadConfig(src: Source): (c: Config)
    ensures src.Parsed? && src.document.Mapping? ==> c == src.document.config
    ensures !(src.Parsed? && src.document.Mapping?) ==> Teams(c) == []
  {
    match src
    case Parsed(Mapping(c)) => c
    case _ => Empty
  }

  /** The intended loader agrees with the written one wherever the written one does not raise. */
  lemma LoadConfigAgrees(src: Source)
    requires TeamsAsWritten(LoadConfigAsWritten(src)).Success?
    ensures TeamsAsWritten(LoadConfigAsWritten(src)) == Success(Teams(LoadConfig(src)))
  {
  }
}
