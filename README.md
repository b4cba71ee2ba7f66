# Cloud Build to Slack notifier — verified model of the decision and formatting slice

The notifier is a Cloud Function (`index.js`). When a Cloud Build status event arrives, it
decodes the build record. It drops every status outside a fixed allow-list. Otherwise it looks
up the commit on GitHub, formats a Slack message and posts it to a webhook.

This project models the deterministic part between those I/O calls:

- the status filter of `subscribe`;
- the field extraction with `''` defaults, including the repository name taken from `REPO_NAME`;
- how the GitHub lookup's outcome sets the commit message and author;
- the Slack payload `createSlackMessage` builds.

Files:

- `wrappers.dfy`: `Option`. `None` stands for a JavaScript property that is `undefined`.
- `js_strings.dfy`: the JavaScript built-ins the slice relies on.
  - `indexOf`.
  - `split` with a one-character separator, with its inverse `Join` and both round trips.
  - `pop`, used for its value.
- `notifier.dfy`: the build record, the lookup outcome, the Slack payload and the effect trace.
  - The pure specification functions `IsReported`, `ExtractDetails`, `Enrich` and `FormatMessage`.
  - `SettleCommitInfo` and `CreateSlackMessage`, which keep the source's imperative shape. The
    first reassigns the locals `commitMessage`/`commitAuthor`. The second conditionally appends
    the third attachment. Both are proved against the specification functions.
  - `Subscribe`, which returns the ordered effects of one invocation: the callback call, the
    GitHub request and the webhook send.

The GitHub request is not performed. Its outcome is an input of type `Lookup`:

- `RequestFailed` covers a network error or a non-2xx answer.
- `Responded(body)` carries the parts of the body that are read: `message` and `author.name`.

A body without `author` makes `response.data.author.name` throw inside `.then`, so the `.catch`
path runs. `LookupFailed` includes that case. In the `.then` path, a body whose `message` is
absent yields the text `*undefined*`, because that is how a template literal prints `undefined`.
The model keeps this. Of the responses, only a body without `author` reaches the `.catch` path.

## Model

| member | source | states |
|---|---|---|
| `JsStrings.IndexOf` | index.js:29 | `indexOf` is -1 exactly when the value is absent; otherwise it is the first position holding it |
| `Notifier.IsReported` | index.js:21-34 | a status passes the filter iff it is present and one of SUCCESS, FAILURE, INTERNAL_ERROR, TIMEOUT, CANCELLED |
| `Notifier.Subscribe` | index.js:14-42 | an unreported status yields no lookup and no send; the callback is invoked with no arguments iff it is a function. A reported status yields exactly one commit lookup followed by exactly one webhook send of the built message, and no callback call |
| `JsStrings.Split` | index.js:55 | `split('_')` never returns an empty array, and no piece contains the separator |
| `JsStrings.JoinSplit` | index.js:55 | joining the pieces of a split with the separator gives back the original string |
| `JsStrings.SplitJoin` | index.js:55 | splitting a join of separator-free pieces gives back the pieces |
| `JsStrings.SplitPrefix` | index.js:55 | a separator-free prefix only extends the first piece of a split |
| `JsStrings.LastSegment` | index.js:55 | `split(sep).pop()` taken for its value (the last piece, via `Last`) never contains the separator; which suffix it is, is stated by the two lemmas below |
| `JsStrings.LastSegmentIsFinalField` | index.js:55 | `split(sep).pop()` is a separator-free suffix, preceded by the separator unless it is the whole string |
| `JsStrings.LastSegmentUnique` | index.js:55 | any separator-free suffix that is preceded by the separator or is the whole string equals `split(sep).pop()` |
| `Notifier.RepoName` | index.js:55 | the repository name is the suffix of `REPO_NAME` after its last `_`; with no `_` it is the whole of `REPO_NAME`; it never contains `_` |
| `Notifier.RepoNameExamples` | index.js:55 | `infra_marketing-site` gives `marketing-site`; `simplename` gives `simplename` |
| `Notifier.OrEmpty` | index.js:51-56 | `x \|\| ''` on a string-valued property: the property's value when it is present, `''` when it is absent |
| `Notifier.ExtractDetails` | index.js:51-56 | a missing id, projectId, COMMIT_SHA, BRANCH_NAME or TRIGGER_NAME becomes `''`; the repository name is `RepoName(REPO_NAME)` and has no `_` |
| `Notifier.LookupFailed` | index.js:70-76 | the `.catch` path runs exactly when the request is rejected or the response body has no `author`, since reading `author.name` then throws inside `.then` |
| `Notifier.Enrich` | index.js:58-76 | a failed lookup, including a body without `author`, gives the placeholder message and the author `''`; otherwise the message and author are the response's own values |
| `Notifier.TemplateText` | index.js:103 | a `${x}` substitution prints a present value as itself and an undefined one as `undefined` |
| `Notifier.CommitApiUrl` | index.js:63 | the request URL is the organisation's commit API prefix, then the repository name, then `/git/commits/`, ending with the commit SHA |
| `Notifier.CommitUrl` | index.js:99 | the commit link is the organisation's GitHub prefix, then the repository name, then `/commit/`, ending with the commit SHA |
| `Notifier.BuildLogsBlock` | index.js:79-96 | the first attachment is titled `View Build Logs`, links to `logUrl`, and has exactly the fields Status (raw status), Environment (`` `projectId` ``) and Trigger (`` `triggerName` ``), in that order |
| `Notifier.CommitBlock` | index.js:97-118 | the second attachment is titled `Commit - <sha>`, links to the commit page, and has exactly the fields Message (`*msg*`), Author, Branch and Repository, in that order |
| `Notifier.WebsiteBlock` | index.js:122-125 | the optional attachment is titled `View Website`, links to the given URL, and has no `fields` |
| `Notifier.Headline` | index.js:129 | the text is `` Build - ` `` followed by the build id and a closing backtick |
| `Notifier.FailedLookupShowsPlaceholder` | index.js:70-76 | on a failed lookup the Message field is `*[ERROR WHILE FETCJING COMMIT INFO]*` and the Author field is `''` |
| `Notifier.SuccessfulLookupShowsCommit` | index.js:70-72 | on a successful lookup the Message field is `*<message>*` and the Author field is the author's name |
| `Notifier.FormatMessage` | index.js:78-134 | the text and `mrkdwn` are fixed; there are 3 attachments iff the trigger is a key of the mapping, otherwise 2; titles, links, field order and decoration are fixed, as listed below |
| `Notifier.SlackMessageFor` | index.js:50-135 | the value `createSlackMessage` resolves to: its text carries the build id (`''` when absent), `mrkdwn` is true, it has 3 attachments iff the defaulted trigger name is a key of the mapping (otherwise 2), and its Message and Author fields come from the settled commit info |
| `Notifier.SettleCommitInfo` | index.js:58-76 | the locals `commitMessage` and `commitAuthor`, reassigned by the `.then`/`.catch` callbacks, end equal to `Enrich` of the lookup outcome |
| `Notifier.CreateSlackMessage` | index.js:50-135 | requests `https://api.github.com/repos/reflektor-digital-inc/<repo>/git/commits/<sha>`; returns the message `FormatMessage` describes, built from the extracted details and the settled commit info |
| `Notifier.ExampleDetails` | index.js:51-56 | the example record yields id `b1`, project `p1`, sha `abc123`, branch `main`, repo `repo` and trigger `backend` |
| `Notifier.ExampleMessage` | index.js:78-134 | for any build record, the example's details, commit info and mapping give the text ``Build - `b1` ``, three attachments, the commit fields `*fix bug*`, `Jane`, `main` and `repo`, and a website link to the mapped URL |
| `Notifier.EndToEndExample` | index.js:50-134 | the example build with a mapped trigger and a successful lookup is reported. Its text is ``Build - `b1` ``, its commit fields are `*fix bug*`, `Jane`, `main` and `repo`, and its third attachment links to the mapped URL |

What the contract of `Notifier.FormatMessage` states:

- The text is ``Build - `<buildId>` `` and `mrkdwn` is true.
- There are exactly 3 attachments iff the trigger name is a key of the mapping. Otherwise there
  are exactly 2.
- Attachment 1 is `View Build Logs`, linked to `logUrl`. Its fields, in order: Status (raw),
  Environment (`` `projectId` ``), Trigger (`` `triggerName` ``).
- Attachment 2 is `Commit - <sha>`, linked to
  `https://github.com/reflektor-digital-inc/<repo>/commit/<sha>`. Its fields, in order:
  Message (`*msg*`), Author, Branch, Repository.
- Attachment 3, when present, is `View Website`. It links to `mapping[triggerName]` and has no
  fields.

## Left out

- Decoding the Pub/Sub payload (`messageToBuild`, index.js:45-47). Base64 and `JSON.parse` are
  library calls over opaque bytes, so the model takes the decoded record as input. A decode
  failure, which rejects the invocation, is therefore not modelled.
- The axios GitHub request (index.js:62-69). This is network I/O. Its URL is an output of
  `CreateSlackMessage` and its outcome is the `Lookup` input. The bearer token and the headers
  are not modelled.
- The `console.error` logging (index.js:74). It is output only.
- The webhook client and the send (index.js:11, 39-41). The send appears as a `WebhookSend`
  effect. The fact that the send runs in an unawaited async function, so that delivery may never
  complete, is a concurrency concern and is not modelled.
- Loading `config.json` (index.js:3-9). The trigger-to-URL mapping is a parameter. The webhook
  URL and the GitHub token are not used by the model.
- `hasOwnProperty` (index.js:121) is modelled as plain key membership in a `map<string, string>`.
  Prototype subtleties are not modelled.
- Only strings and absence are modelled for record values. Other JavaScript values are not:
  `null`, numbers, and falsy non-strings that `|| ''` would also replace. A `null` `author` is
  treated like an absent one, because both throw.
- A record without `substitutions` or without `REPO_NAME` is outside the model altogether:
  both are required fields. In the source such a record is still skipped normally when its status
  is not reported (index.js:29-33), because `substitutions` is first read at index.js:53; when the
  status is reported, `createSlackMessage` throws (index.js:53, 55). Neither case is modelled.
- Strings are modelled as Dafny strings, which are sequences of Unicode scalar values. JavaScript
  strings are sequences of UTF-16 code units, so a lone surrogate (which a JSON escape can
  produce) cannot be represented. Splitting on `_` gives the same pieces either way.
- The value returned by `callback()` and the promise `subscribe` returns are not modelled. Only
  whether the callback is invoked is recorded.
