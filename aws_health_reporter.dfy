/** The pure part of the Elastic Beanstalk health reporter: the colour-to-label
    mapping and the mapping from the environments the SDK returned to one report
    (src/reporters/AwsHealthReporter.ts). The SDK call itself is not modelled: its
    `Environments` field is the input. */
module AwsHealthReporter {
  import opened Wrappers

  const OkLabel := ":heavy_check_mark: OK"
  const ErrorLabel := ":red_circle: Error"
  const WarningLabel := ":warning: Warning"
  const UnknownLabel := ":grey_question: Unknown"

  const ReportName := "Elastic Beanstalk"
  const ReportTestName := "Environment"
  const HealthScoreName := "Health"
  const UnknownEnvironmentName := "Unknown environment"
  const DefaultHealth := "Grey"
  const MissingEnvironmentsMessage := "Expected ElasticBeanstalk API call to return a list of environments"

  /** `formatAwsHealth`: the display label of a health colour; every colour other
      than Green, Red and Yellow (Grey included) shows as Unknown. */
  function FormatAwsHealth(color: string): (shown: string)
    ensures shown == OkLabel <==> color == "Green"
    ensures shown == ErrorLabel <==> color == "Red"
    ensures shown == WarningLabel <==> color == "Yellow"
    ensures shown == UnknownLabel <==> color != "Green" && color != "Red" && color != "Yellow"
  {
    if color == "Green" then OkLabel
    else if color == "Red" then ErrorLabel
    else if color == "Yellow" then WarningLabel
    else UnknownLabel
  }

  /** The two fields of an SDK environment description the reporter reads. */
  datatype EnvironmentDescription = EnvironmentDescription(environmentName: Option<string>, health: Option<string>)

  /** Which formatter a record's `formatScore` is; this reporter only ever stores `formatAwsHealth`. */
  datatype ScoreFormatter = FormatAwsHealthFormatter

  /** A record of this reporter's report shape: `{ name, scores, formatScore }`. */
  datatype HealthRecord = HealthRecord(name: string, scores: seq<string>, formatScore: ScoreFormatter)

  /** This reporter's report shape: `{ name, testName, scoreNames, records }`. */
  datatype HealthReport = HealthReport(name: string, testName: string, scoreNames: seq<string>, records: seq<HealthRecord>)

  /** JavaScript's `x || fallback` on an optional string: undefined and "" both fall back. */
  function OrDefault(x: Option<string>, fallback: string): (r: string)
    ensures x.Some? && x.value != "" ==> r == x.value
    ensures x.None? || x.value == "" ==> r == fallback
  {
    if x.Some? && x.value != "" then x.value else fallback
  }

  /** The record built for one environment. */
  function EnvironmentRecord(env: EnvironmentDescription): HealthRecord
  {
    HealthRecord(OrDefault(env.environmentName, UnknownEnvironmentName),
                 [OrDefault(env.health, DefaultHealth)],
                 FormatAwsHealthFormatter)
  }

  /** `getReports` once the SDK has answered: an error when `Environments` is absent,
      otherwise exactly one report with one record per environment, in order. */
  function GetReports(environments: Option<seq<EnvironmentDescription>>): (r: Result<seq<HealthReport>, string>)
    ensures r.Failure? <==> environments.None?
    ensures r.Failure? ==> r.error == MissingEnvironmentsMessage
    ensures r.Success? ==>
      |r.value| == 1 &&
      r.value[0].name == ReportName && r.value[0].testName == ReportTestName &&
      r.value[0].scoreNames == [HealthScoreName] &&
      |r.value[0].records| == |environments.value|
    ensures r.Success? ==> forall i :: 0 <= i < |environments.value| ==>
      RecordDescribes(r.value[0].records[i], environments.value[i])
  {
    match environments
    case None => Failure(MissingEnvironmentsMessage)
    case Some(envs) =>
      Success([HealthReport(ReportName, ReportTestName, [HealthScoreName],
                            seq(|envs|, i requires 0 <= i < |envs| => EnvironmentRecord(envs[i])))])
  }

  /** `rec` is the record of `env`: its name when present and non-empty, otherwise
      "Unknown environment"; one score, its health when present and non-empty,
      otherwise Grey; formatted by `formatAwsHealth`. */
  predicate RecordDescribes(rec: HealthRecord, env: EnvironmentDescription)
  {
    (if env.environmentName.Some? && env.environmentName.value != ""
     then rec.name == env.environmentName.value
     else rec.name == UnknownEnvironmentName) &&
    (if env.health.Some? && env.health.value != ""
     then rec.scores == [env.health.value]
     else rec.scores == [DefaultHealth]) &&
    rec.formatScore == FormatAwsHealthFormatter
  }

  /** The label shown for each environment: OK, Error or Warning exactly for the
      Green, Red and Yellow colours; Unknown for any other colour and for a
      missing health. A corollary of the contracts of `GetReports` and
      `FormatAwsHealth`, which Dafny combines without further steps. */
  lemma ShownHealth(envs: seq<EnvironmentDescription>, i: nat)
    requires i < |envs|
    ensures GetReports(Some(envs)).Success?
    ensures var shown := FormatAwsHealth(GetReports(Some(envs)).value[0].records[i].scores[0]);
      (shown == OkLabel <==> envs[i].health == Some("Green")) &&
      (shown == ErrorLabel <==> envs[i].health == Some("Red")) &&
      (shown == WarningLabel <==> envs[i].health == Some("Yellow")) &&
      ((envs[i].health.None? || envs[i].health == Some("")) ==> shown == UnknownLabel)
  {
  }
}
