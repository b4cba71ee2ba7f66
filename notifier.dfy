/**
 * The decision-and-formatting slice of the Cloud Build to Slack notifier
 * (index.js): the status filter of `subscribe` and `createSlackMessage`.
 * The build record arrives already decoded, the GitHub commit lookup is an
 * input (`Lookup`), the trigger-to-URL mapping is a parameter, and the
 * outbound calls appear as `Effect`s in the order `subscribe` makes them.
 */
module Notifier {
  import opened Wrappers
  import opened JsStrings

  /** The build statuses that produce a notification (index.js:21-27). */
  const ReportedStatuses: seq<string> := ["SUCCESS", "FAILURE", "INTERNAL_ERROR", "TIMEOUT", "CANCELLED"]

  /** Replaces the commit message when the commit lookup fails (index.js:75). */
  const CommitPlaceholder: string := "[ERROR WHILE FETCJING COMMIT INFO]"

  /** The commit pages and the commit API of the organisation (index.js:63, 99). */
  const CommitPageBase: string := "https://github.com/reflektor-digital-inc/"
  const CommitApiBase: string := "https://api.github.com/repos/reflektor-digital-inc/"

  /** `build.substitutions`; `REPO_NAME` has no default, so it is required. */
  datatype Substitutions = Substitutions(
    commitSha: Option<string>,
    branchName: Option<string>,
    repoName: string,
    triggerName: Option<string>)

  /** The decoded Cloud Build record; `None` is an absent property. */
  datatype Build = Build(
    id: Option<string>,
    projectId: Option<string>,
    status: Option<string>,
    logUrl: Option<string>,
    substitutions: Substitutions)

  /** The GitHub commit object's `author` and the part of the body that is read. */
  datatype CommitAuthor = CommitAuthor(name: Option<string>)
  datatype CommitBody = CommitBody(message: Option<string>, author: Option<CommitAuthor>)

  /** How the GitHub request ended: rejected (network error, non-2xx), or with a body. */
  datatype Lookup = RequestFailed | Responded(body: CommitBody)

  /** The values of the locals `commitMessage` and `commitAuthor` once the lookup settles. */
  datatype CommitInfo = CommitInfo(message: Option<string>, author: Option<string>)

  /** The values `createSlackMessage` computes with `|| ''` (index.js:51-56). */
  datatype Details = Details(
    buildId: string,
    projectId: string,
    commitSha: string,
    branch: string,
    repoName: string,
    triggerName: string)

  /** Slack payload; a `None` value or `fields` is a property left undefined. */
  datatype Field = Field(title: string, value: Option<string>)
  datatype Attachment = Attachment(title: string, titleLink: Option<string>, fields: Option<seq<Field>>)
  datatype SlackMessage = SlackMessage(text: string, mrkdwn: bool, attachments: seq<Attachment>)

  /** The externally visible steps of one invocation of `subscribe`. */
  datatype Effect =
    | CallbackInvoked
    | CommitLookup(url: string)
    | WebhookSend(message: SlackMessage)

  /** `status.indexOf(build.status) !== -1` (index.js:29). */
  function IsReported(status: Option<string>): (reported: bool)
    ensures reported <==>
              status == Some("SUCCESS") || status == Some("FAILURE") || status == Some("INTERNAL_ERROR")
              || status == Some("TIMEOUT") || status == Some("CANCELLED")
  {
    status.Some? && IndexOf(ReportedStatuses, status.value) != -1
  }

  /** `x || ''` on a string-valued property. */
  function OrEmpty(x: Option<string>): (s: string)
    ensures x.Some? ==> s == x.value
    ensures x.None? ==> s == ""
  {
    match x
    case Some(v) => v
    case None => ""
  }

  /**
   * `REPO_NAME.split('_').pop() || ''` (index.js:55): the suffix of `repoVar`
   * after its last underscore, or all of it when it has none.
   */
  function RepoName(repoVar: string): (name: string)
    ensures '_' !in name
    ensures |name| <= |repoVar| && name == repoVar[|repoVar| - |name|..]
    ensures |name| < |repoVar| ==> repoVar[|repoVar| - |name| - 1] == '_'
    ensures '_' !in repoVar ==> name == repoVar
  {
    LastSegmentIsFinalField(repoVar, '_');
    LastSegment(repoVar, '_')
  }

  /** The locals set at index.js:51-56: every missing value becomes `''`. */
  function ExtractDetails(build: Build): (d: Details)
    ensures build.id.None? ==> d.buildId == ""
    ensures build.id.Some? ==> d.buildId == build.id.value
    ensures build.projectId.None? ==> d.projectId == ""
    ensures build.projectId.Some? ==> d.projectId == build.projectId.value
    ensures build.substitutions.commitSha.None? ==> d.commitSha == ""
    ensures build.substitutions.commitSha.Some? ==> d.commitSha == build.substitutions.commitSha.value
    ensures build.substitutions.branchName.None? ==> d.branch == ""
    ensures build.substitutions.branchName.Some? ==> d.branch == build.substitutions.branchName.value
    ensures build.substitutions.triggerName.None? ==> d.triggerName == ""
    ensures build.substitutions.triggerName.Some? ==> d.triggerName == build.substitutions.triggerName.value
    ensures d.repoName == RepoName(build.substitutions.repoName) && '_' !in d.repoName
  {
    var subs := build.substitutions;
    Details(OrEmpty(build.id), OrEmpty(build.projectId), OrEmpty(subs.commitSha),
            OrEmpty(subs.branchName), RepoName(subs.repoName), OrEmpty(subs.triggerName))
  }

  /**
   * The `.then` callback throws when the body has no `author` (reading
   * `author.name`), so the `.catch` path runs for it too (index.js:70-76).
   */
  function LookupFailed(lookup: Lookup): (failed: bool)
    ensures failed <==> lookup == RequestFailed || (lookup.Responded? && lookup.body.author == None)
  {
    lookup.RequestFailed? || lookup.body.author.None?
  }

  /** `commitMessage` and `commitAuthor` after the GitHub request settles (index.js:58-76). */
  function Enrich(lookup: Lookup): (info: CommitInfo)
    ensures LookupFailed(lookup) ==> info == CommitInfo(Some(CommitPlaceholder), Some(""))
    ensures !LookupFailed(lookup) ==>
              info.message == lookup.body.message && info.author == lookup.body.author.value.name
  {
    match lookup
    case RequestFailed => CommitInfo(Some(CommitPlaceholder), Some(""))
    case Responded(body) =>
      match body.author
      case None => CommitInfo(Some(CommitPlaceholder), Some(""))
      case Some(author) => CommitInfo(body.message, author.name)
  }

  /** A template-literal substitution `${x}`: an undefined value prints as "undefined". */
  function TemplateText(x: Option<string>): (text: string)
    ensures x.Some? ==> text == x.value
    ensures x == None ==> text == "undefined"
  {
    match x
    case Some(v) => v
    case None => "undefined"
  }

  /** A value wrapped in backticks, rendered by Slack as inline code. */
  function Code(s: string): string
  {
    "`" + s + "`"
  }

  /** The GitHub API request of index.js:63. */
  function CommitApiUrl(repoName: string, sha: string): (url: string)
    ensures |url| == |CommitApiBase| + |repoName| + |"/git/commits/"| + |sha|
    ensures url[..|CommitApiBase|] == CommitApiBase
    ensures url[|CommitApiBase|..|CommitApiBase| + |repoName|] == repoName
    ensures url[|CommitApiBase| + |repoName|..|url| - |sha|] == "/git/commits/"
    ensures url[|url| - |sha|..] == sha
  {
    CommitApiBase + repoName + "/git/commits/" + sha
  }

  /** The commit page linked from the second attachment (index.js:99). */
  function CommitUrl(repoName: string, sha: string): (url: string)
    ensures |url| == |CommitPageBase| + |repoName| + |"/commit/"| + |sha|
    ensures url[..|CommitPageBase|] == CommitPageBase
    ensures url[|CommitPageBase|..|CommitPageBase| + |repoName|] == repoName
    ensures url[|CommitPageBase| + |repoName|..|url| - |sha|] == "/commit/"
    ensures url[|url| - |sha|..] == sha
  {
    CommitPageBase + repoName + "/commit/" + sha
  }

  /** The first attachment (index.js:79-96). */
  function BuildLogsBlock(build: Build, d: Details): (block: Attachment)
    ensures block.title == "View Build Logs" && block.titleLink == build.logUrl
    ensures block.fields.Some? && |block.fields.value| == 3
    ensures block.fields.value[0] == Field("Status", build.status)
    ensures block.fields.value[1] == Field("Environment", Some("`" + d.projectId + "`"))
    ensures block.fields.value[2] == Field("Trigger", Some("`" + d.triggerName + "`"))
  {
    Attachment("View Build Logs", build.logUrl, Some([
      Field("Status", build.status),
      Field("Environment", Some(Code(d.projectId))),
      Field("Trigger", Some(Code(d.triggerName)))]))
  }

  /** The second attachment (index.js:97-118). */
  function CommitBlock(d: Details, info: CommitInfo): (block: Attachment)
    ensures block.title == "Commit - " + d.commitSha
    ensures block.titleLink == Some(CommitUrl(d.repoName, d.commitSha))
    ensures block.fields.Some? && |block.fields.value| == 4
    ensures block.fields.value[0] == Field("Message", Some("*" + TemplateText(info.message) + "*"))
    ensures block.fields.value[1] == Field("Author", info.author)
    ensures block.fields.value[2] == Field("Branch", Some(d.branch))
    ensures block.fields.value[3] == Field("Repository", Some(d.repoName))
  {
    Attachment("Commit - " + d.commitSha, Some(CommitUrl(d.repoName, d.commitSha)), Some([
      Field("Message", Some("*" + TemplateText(info.message) + "*")),
      Field("Author", info.author),
      Field("Branch", Some(d.branch)),
      Field("Repository", Some(d.repoName))]))
  }

  /** The optional third attachment (index.js:122-125); it has no fields. */
  function WebsiteBlock(url: string): (block: Attachment)
    ensures block.title == "View Website" && block.titleLink == Some(url) && block.fields == None
  {
    Attachment("View Website", Some(url), None)
  }

  /** The headline (index.js:129). */
  function Headline(buildId: string): (text: string)
    ensures |text| == |buildId| + 10
    ensures text[..9] == "Build - `" && text[9..|text| - 1] == buildId && text[|text| - 1] == '`'
  {
    "Build - `" + buildId + "`"
  }

  /**
   * The message `createSlackMessage` resolves to, given the extracted
   * details and the settled commit info (index.js:78-134).
   */
  function FormatMessage(build: Build, d: Details, info: CommitInfo, triggerUrls: map<string, string>): (m: SlackMessage)
    ensures m.text == "Build - `" + d.buildId + "`" && m.mrkdwn
    ensures |m.attachments| == 3 <==> d.triggerName in triggerUrls
    ensures |m.attachments| == 2 <==> d.triggerName !in triggerUrls
    ensures m.attachments[0].title == "View Build Logs" && m.attachments[0].titleLink == build.logUrl
    ensures m.attachments[0].fields == Some([Field("Status", build.status),
                                             Field("Environment", Some("`" + d.projectId + "`")),
                                             Field("Trigger", Some("`" + d.triggerName + "`"))])
    ensures m.attachments[1].title == "Commit - " + d.commitSha
    ensures m.attachments[1].titleLink ==
              Some(CommitPageBase + d.repoName + "/commit/" + d.commitSha)
    ensures m.attachments[1].fields == Some([Field("Message", Some("*" + TemplateText(info.message) + "*")),
                                             Field("Author", info.author),
                                             Field("Branch", Some(d.branch)),
                                             Field("Repository", Some(d.repoName))])
    ensures d.triggerName in triggerUrls ==>
              m.attachments[2] == Attachment("View Website", Some(triggerUrls[d.triggerName]), None)
  {
    var website := if d.triggerName in triggerUrls then [WebsiteBlock(triggerUrls[d.triggerName])] else [];
    SlackMessage(Headline(d.buildId), true, [BuildLogsBlock(build, d), CommitBlock(d, info)] + website)
  }

  /** The whole of `createSlackMessage` as a value. */
  function SlackMessageFor(build: Build, lookup: Lookup, triggerUrls: map<string, string>): (m: SlackMessage)
    ensures m.text == "Build - `" + OrEmpty(build.id) + "`" && m.mrkdwn
    ensures |m.attachments| == 3 <==> OrEmpty(build.substitutions.triggerName) in triggerUrls
    ensures |m.attachments| == 2 <==> OrEmpty(build.substitutions.triggerName) !in triggerUrls
    ensures m.attachments[1].fields.Some? && |m.attachments[1].fields.value| == 4
    ensures m.attachments[1].fields.value[0] == Field("Message", Some("*" + TemplateText(Enrich(lookup).message) + "*"))
    ensures m.attachments[1].fields.value[1] == Field("Author", Enrich(lookup).author)
  {
    FormatMessage(build, ExtractDetails(build), Enrich(lookup), triggerUrls)
  }

  /**
   * The `.then`/`.catch` callbacks of index.js:70-76 reassigning the locals
   * `commitMessage` and `commitAuthor`, both initially `''` (index.js:58-59).
   */
  method SettleCommitInfo(lookup: Lookup) returns (commitMessage: Option<string>, commitAuthor: Option<string>)
    ensures CommitInfo(commitMessage, commitAuthor) == Enrich(lookup)
  {
    commitMessage, commitAuthor := Some(""), Some("");
    match lookup {
      case RequestFailed =>
        commitMessage := Some(CommitPlaceholder);
      case Responded(body) =>
        commitMessage := body.message;
        match body.author {
          case Some(author) =>
            commitAuthor := author.name;
          case None =>
            // reading `author.name` throws; the `.catch` callback runs
            commitMessage := Some(CommitPlaceholder);
        }
    }
  }

  /**
   * `createSlackMessage` (index.js:50-135): `lookupUrl` is the request it
   * makes and `lookup` stands for how that request ended.
   */
  method CreateSlackMessage(build: Build, lookup: Lookup, triggerUrls: map<string, string>)
    returns (lookupUrl: string, message: SlackMessage)
    ensures lookupUrl == CommitApiUrl(ExtractDetails(build).repoName, ExtractDetails(build).commitSha)
    ensures message == SlackMessageFor(build, lookup, triggerUrls)
  {
    var d := ExtractDetails(build);
    lookupUrl := CommitApiUrl(d.repoName, d.commitSha);
    var commitMessage, commitAuthor := SettleCommitInfo(lookup);
    var attachments := [BuildLogsBlock(build, d), CommitBlock(d, CommitInfo(commitMessage, commitAuthor))];
    if d.triggerName in triggerUrls {
      attachments := attachments + [WebsiteBlock(triggerUrls[d.triggerName])];
    }
    message := SlackMessage(Headline(d.buildId), true, attachments);
  }

  /**
   * `subscribe` (index.js:14-42) after decoding: the effects of one
   * invocation, in order. `callbackIsFunction` is `typeof callback === 'function'`.
   */
  method Subscribe(build: Build, lookup: Lookup, triggerUrls: map<string, string>, callbackIsFunction: bool)
    returns (effects: seq<Effect>)
    ensures !IsReported(build.status) ==> effects == (if callbackIsFunction then [CallbackInvoked] else [])
    ensures IsReported(build.status) ==>
              effects == [CommitLookup(CommitApiUrl(ExtractDetails(build).repoName, ExtractDetails(build).commitSha)),
                          WebhookSend(SlackMessageFor(build, lookup, triggerUrls))]
  {
    if !IsReported(build.status) {
      effects := if callbackIsFunction then [CallbackInvoked] else [];
      return;
    }
    var lookupUrl, message := CreateSlackMessage(build, lookup, triggerUrls);
    effects := [CommitLookup(lookupUrl), WebhookSend(message)];
  }

  /** A failed lookup, including a body without `author`, shows the placeholder and an empty author. */
  lemma FailedLookupShowsPlaceholder(build: Build, lookup: Lookup, triggerUrls: map<string, string>)
    requires LookupFailed(lookup)
    ensures var commit := SlackMessageFor(build, lookup, triggerUrls).attachments[1];
            commit.fields.Some? && |commit.fields.value| == 4
            && commit.fields.value[0] == Field("Message", Some("*" + CommitPlaceholder + "*"))
            && commit.fields.value[1] == Field("Author", Some(""))
  {
  }

  /** A successful lookup shows the commit's own message and author name. */
  lemma SuccessfulLookupShowsCommit(build: Build, message: string, author: string, triggerUrls: map<string, string>)
    ensures var lookup := Responded(CommitBody(Some(message), Some(CommitAuthor(Some(author)))));
            var commit := SlackMessageFor(build, lookup, triggerUrls).attachments[1];
            commit.fields.Some? && |commit.fields.value| == 4
            && commit.fields.value[0] == Field("Message", Some("*" + message + "*"))
            && commit.fields.value[1] == Field("Author", Some(author))
  {
  }

  /** The repository names derived from two `REPO_NAME` values. */
  lemma RepoNameExamples()
    ensures RepoName("infra_marketing-site") == "marketing-site"
    ensures RepoName("simplename") == "simplename"
  {
    var s := "infra_marketing-site";
    assert s[|s| - |"marketing-site"|..] == "marketing-site";
    LastSegmentUnique(s, '_', "marketing-site");
  }

  /** The details extracted from the end-to-end example's build record. */
  lemma ExampleDetails()
    ensures var build := Build(Some("b1"), Some("p1"), Some("SUCCESS"), Some("http://logs"),
                               Substitutions(Some("abc123"), Some("main"), "org_repo", Some("backend")));
            ExtractDetails(build) == Details("b1", "p1", "abc123", "main", "repo", "backend")
  {
  }

  /** The message formatted from the end-to-end example's details and commit info, for any build. */
  lemma ExampleMessage(build: Build)
    ensures var d := Details("b1", "p1", "abc123", "main", "repo", "backend");
            var info := CommitInfo(Some("fix bug"), Some("Jane"));
            var m := FormatMessage(build, d, info, map["backend" := "https://api.example.com"]);
            m.text == "Build - `b1`"
            && |m.attachments| == 3
            && m.attachments[1].fields == Some([Field("Message", Some("*fix bug*")), Field("Author", Some("Jane")),
                                                Field("Branch", Some("main")), Field("Repository", Some("repo"))])
            && m.attachments[2] == Attachment("View Website", Some("https://api.example.com"), None)
  {
    var d := Details("b1", "p1", "abc123", "main", "repo", "backend");
    var triggerUrls := map["backend" := "https://api.example.com"];
    assert "backend" in triggerUrls;
    assert "Build - `" + d.buildId + "`" == "Build - `b1`";
    assert "*" + TemplateText(Some("fix bug")) + "*" == "*fix bug*";
  }

  /** The end-to-end example: a reported build with a mapped trigger and a successful lookup. */
  lemma EndToEndExample()
    ensures var build := Build(Some("b1"), Some("p1"), Some("SUCCESS"), Some("http://logs"),
                               Substitutions(Some("abc123"), Some("main"), "org_repo", Some("backend")));
            var lookup := Responded(CommitBody(Some("fix bug"), Some(CommitAuthor(Some("Jane")))));
            var m := SlackMessageFor(build, lookup, map["backend" := "https://api.example.com"]);
            IsReported(build.status)
            && m.text == "Build - `b1`"
            && |m.attachments| == 3
            && m.attachments[1].fields == Some([Field("Message", Some("*fix bug*")), Field("Author", Some("Jane")),
                                                Field("Branch", Some("main")), Field("Repository", Some("repo"))])
            && m.attachments[2] == Attachment("View Website", Some("https://api.example.com"), None)
  {
    var build := Build(Some("b1"), Some("p1"), Some("SUCCESS"), Some("http://logs"),
                       Substitutions(Some("abc123"), Some("main"), "org_repo", Some("backend")));
    ExampleDetails();
    ExampleMessage(build);
  }
}
