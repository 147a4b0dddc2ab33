/** The options record of the daily player gamelogs endpoint, the factory that
    pre-fills it from the service configuration, and the validator that checks
    the seven required URL parts in a fixed order. */
module GamelogOptions {

  datatype Option<T> = None | Some(value: T)

  /** The process-wide configuration the factory reads from. */
  datatype Config = Config(
    baseURL: string,
    version: string,
    sport: string,
    format: string,
    season: string,
    authorization: string)

  /** Seven required URL parts, then nine optional query parameters. */
  datatype Options = Options(
    url: string,
    version: string,
    sport: string,
    season: string,
    date: string,
    week: string,
    format: string,
    team: string,
    player: string,
    position: string,
    game: string,
    stats: string,
    sort: string,
    offset: string,
    limit: string,
    force: string)

  /** The required URL parts, declared in the order the validator checks them. */
  datatype RequiredField = URL | Version | Sport | Season | Date | Week | Format

  /** Position of a required field in the validator's order. */
  function Rank(f: RequiredField): nat
  {
    match f
    case URL => 0
    case Version => 1
    case Sport => 2
    case Season => 3
    case Date => 4
    case Week => 5
    case Format => 6
  }

  /** The name the error message uses for a field. */
  function FieldName(f: RequiredField): string
  {
    match f
    case URL => "URL"
    case Version => "Version"
    case Sport => "Sport"
    case Season => "Season"
    case Date => "Date"
    case Week => "Week"
    case Format => "Format"
  }

  function RequiredValue(o: Options, f: RequiredField): string
  {
    match f
    case URL => o.url
    case Version => o.version
    case Sport => o.sport
    case Season => o.season
    case Date => o.date
    case Week => o.week
    case Format => o.format
  }

  predicate AllRequiredPresent(o: Options)
  {
    forall f :: RequiredValue(o, f) != ""
  }

  /** The validation error: it names the one field found missing. */
  datatype MissingOption = MissingOption(field: RequiredField)
  {
    /** The fixed prefix, then the name of the missing field. */
    function Message(): (m: string)
      ensures |m| == |MissingPrefix| + |FieldName(field)|
      ensures m[..|MissingPrefix|] == MissingPrefix && m[|MissingPrefix|..] == FieldName(field)
    {
      MissingPrefix + FieldName(field)
    }
  }

  const MissingPrefix: string := "missing required option to build the url: "

  /** Builds the options with the URL parts that come from configuration;
      date, week and every optional parameter are left empty. */
  function NewDailyPlayerGamelogsOptions(c: Config): (o: Options)
    ensures o.url == c.baseURL && o.version == c.version && o.sport == c.sport
    ensures o.format == c.format && o.season == c.season
    ensures o.date == "" && o.week == ""
    ensures o.team == o.player == o.position == o.game == o.stats == ""
    ensures o.sort == o.offset == o.limit == o.force == ""
  {
    Options(c.baseURL, c.version, c.sport, c.season, "", "", c.format,
            "", "", "", "", "", "", "", "", "")
  }

  /** Checks the required fields one after another and stops at the first
      empty one. The result is None exactly when every required field is set;
      otherwise it names the earliest empty field in the check order. */
  function Validate(o: Options): (r: Option<MissingOption>)
    ensures r.Some? ==> RequiredValue(o, r.value.field) == ""
    ensures r.None? <==> AllRequiredPresent(o)
    ensures r.Some? ==> forall g :: Rank(g) < Rank(r.value.field) ==> RequiredValue(o, g) != ""
  {
    if |o.url| == 0 then Some(MissingOption(URL))
    else if |o.version| == 0 then Some(MissingOption(Version))
    else if |o.sport| == 0 then Some(MissingOption(Sport))
    else if |o.season| == 0 then Some(MissingOption(Season))
    else if |o.date| == 0 then Some(MissingOption(Date))
    else if |o.week| == 0 then Some(MissingOption(Week))
    else if |o.format| == 0 then Some(MissingOption(Format))
    else None
  }

  /** Fields after the one reported are never looked at: changing them (or any
      optional parameter) does not change the verdict. */
  lemma ValidateStopsAtFirstMissing(o: Options, o': Options, f: RequiredField)
    requires Validate(o) == Some(MissingOption(f))
    requires forall g :: Rank(g) <= Rank(f) ==> RequiredValue(o', g) == RequiredValue(o, g)
    ensures Validate(o') == Some(MissingOption(f))
  {
  }

  /** Each missing field yields a different message, so the message identifies
      the field. */
  lemma MessageIdentifiesField(e: MissingOption, e': MissingOption)
    requires e.Message() == e'.Message()
    ensures e == e'
  {
    var n := |MissingPrefix|;
    assert e.Message()[n..] == FieldName(e.field);
    assert e'.Message()[n..] == FieldName(e'.field);
  }

  /** Options fresh from the factory fail validation: at the first empty
      configured part, and at Date when the configuration is complete. */
  lemma FreshOptionsFailValidation(c: Config)
    ensures var r := Validate(NewDailyPlayerGamelogsOptions(c));
      r == Some(MissingOption(
        if c.baseURL == "" then URL
        else if c.version == "" then Version
        else if c.sport == "" then Sport
        else if c.season == "" then Season
        else Date))
  {
  }

  /** Filling in date and week is all a complete configuration needs. */
  lemma FilledFreshOptionsValidate(c: Config, date: string, week: string)
    requires c.baseURL != "" && c.version != "" && c.sport != ""
    requires c.season != "" && c.format != ""
    requires date != "" && week != ""
    ensures Validate(NewDailyPlayerGamelogsOptions(c).(date := date, week := week)).None?
  {
  }
}
