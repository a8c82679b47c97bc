/**
  The helpers of the feedback-report route: the canonical report type, the
  per-account and per-type cooldown, and the list of embed fields a feedback
  report is posted with. A request field that is missing is written "".
 */
module Reports {
  import opened Text

  // ---------------------------------------------------------------------------
  // Report type

  /** None of the four fixed answers has a trim character at either end. */
  lemma AnswersTrimmed()
    ensures IsTrimmed("Bug") && IsTrimmed("Comment") && IsTrimmed("Player") && IsTrimmed("Unknown")
  {
  }

  /**
    The canonical form of a raw report type: trimmed; "bug", "comment" and
    "player" in any case become "Bug", "Comment" and "Player", any other
    non-empty value is kept as it is, and nothing at all becomes "Unknown".
   */
  function CanonicalType(raw: string): (r: string)
    ensures r != "" && IsTrimmed(r)
  {
    AnswersTrimmed();
    var t := Trim(raw);
    var lower := Lower(t);
    if lower == "bug" then "Bug"
    else if lower == "comment" then "Comment"
    else if lower == "player" then "Player"
    else if t != "" then t
    else "Unknown"
  }

  /** normalizeType: the route's type, or else the form's feedbacktype, in canonical form. */
  function NormalizeType(urlType: string, bodyType: string): (r: string)
    ensures r != "" && IsTrimmed(r)
  {
    CanonicalType(OrElse(urlType, bodyType))
  }

  /** The three known types are recognised whatever their case and surrounding white space. */
  lemma NormalizeTypeKnown(urlType: string, bodyType: string)
    ensures var lower := Lower(Trim(OrElse(urlType, bodyType)));
      && (lower == "bug" ==> NormalizeType(urlType, bodyType) == "Bug")
      && (lower == "comment" ==> NormalizeType(urlType, bodyType) == "Comment")
      && (lower == "player" ==> NormalizeType(urlType, bodyType) == "Player")
  {
  }

  /** Any other type keeps its own spelling, trimmed; an empty or blank one becomes "Unknown". */
  lemma NormalizeTypeOther(urlType: string, bodyType: string)
    requires Lower(Trim(OrElse(urlType, bodyType))) !in {"bug", "comment", "player"}
    ensures var t := Trim(OrElse(urlType, bodyType));
      NormalizeType(urlType, bodyType) == if t == "" then "Unknown" else t
  {
  }

  /** The route's type wins whenever it is present, even when it is only white space. */
  lemma NormalizeTypePrecedence(urlType: string, bodyType: string, otherBodyType: string)
    ensures urlType != "" ==> NormalizeType(urlType, bodyType) == NormalizeType(urlType, otherBodyType)
    ensures urlType == "" ==> NormalizeType(urlType, bodyType) == NormalizeType(bodyType, "")
  {
    if urlType != "" {
      assert OrElse(urlType, bodyType) == OrElse(urlType, otherBodyType);
    } else {
      assert OrElse(urlType, bodyType) == OrElse(bodyType, "");
    }
  }

  /** A blank route type hides the form's type: the report is of type "Unknown". */
  lemma BlankUrlTypeIsUnknown(urlType: string, bodyType: string)
    requires urlType != "" && forall k :: 0 <= k < |urlType| ==> IsSpace(urlType[k])
    ensures NormalizeType(urlType, bodyType) == "Unknown"
  {
    assert Trim(urlType) == [];
  }

  /** The four fixed answers, lower-cased. */
  lemma LowerOfAnswers()
    ensures Lower("Bug") == "bug" && Lower("Comment") == "comment"
    ensures Lower("Player") == "player" && Lower("Unknown") == "unknown"
  {
    assert Lower("Bug") == [LowerChar('B'), LowerChar('u'), LowerChar('g')];
    assert Lower("Comment") == [LowerChar('C'), LowerChar('o'), LowerChar('m'), LowerChar('m'), LowerChar('e'), LowerChar('n'), LowerChar('t')];
    assert Lower("Player") == [LowerChar('P'), LowerChar('l'), LowerChar('a'), LowerChar('y'), LowerChar('e'), LowerChar('r')];
    assert Lower("Unknown") == [LowerChar('U'), LowerChar('n'), LowerChar('k'), LowerChar('n'), LowerChar('o'), LowerChar('w'), LowerChar('n')];
  }

  /** Each of the four answers is its own canonical form. */
  lemma CanonicalOfAnswers()
    ensures CanonicalType("Bug") == "Bug" && CanonicalType("Comment") == "Comment"
    ensures CanonicalType("Player") == "Player" && CanonicalType("Unknown") == "Unknown"
  {
    AnswersTrimmed();
    LowerOfAnswers();
    TrimOfTrimmed("Bug");
    TrimOfTrimmed("Comment");
    TrimOfTrimmed("Player");
    TrimOfTrimmed("Unknown");
  }

  /** A trimmed type whose lower-case form is none of the three keywords is kept as it is. */
  lemma CanonicalOfOther(t: string)
    requires t != "" && IsTrimmed(t)
    requires Lower(t) != "bug" && Lower(t) != "comment" && Lower(t) != "player"
    ensures CanonicalType(t) == t
  {
    TrimOfTrimmed(t);
  }

  /** A report type that is already canonical stays as it is. */
  lemma CanonicalTypeIdempotent(raw: string)
    ensures CanonicalType(CanonicalType(raw)) == CanonicalType(raw)
  {
    var t := Trim(raw);
    var lower := Lower(t);
    CanonicalOfAnswers();
    if lower != "bug" && lower != "comment" && lower != "player" && t != "" {
      assert CanonicalType(raw) == t;
      CanonicalOfOther(t);
    }
  }

  /** Normalizing the result once more, as a route type alone, gives it back. */
  lemma NormalizeTypeIdempotent(urlType: string, bodyType: string)
    ensures var r := NormalizeType(urlType, bodyType); NormalizeType(r, "") == r
  {
    CanonicalTypeIdempotent(OrElse(urlType, bodyType));
  }

  // ---------------------------------------------------------------------------
  // Cooldown

  /** REPORT_COOLDOWN_MS. */
  const ReportCooldownMs: int := 15 * 1000

  /** The key of lastReportAt: `${accountId}:${type}`. */
  function ReportKey(accountId: string, reportType: string): (k: string)
    ensures |k| == |accountId| + 1 + |reportType|
    ensures k[..|accountId|] == accountId && k[|accountId|] == ':' && k[|accountId| + 1..] == reportType
  {
    accountId + ":" + reportType
  }

  /** Two different account-type pairs can share a key, and so a cooldown. */
  lemma ReportKeyCollision()
    ensures ("a:b", "c") != ("a", "b:c") && ReportKey("a:b", "c") == ReportKey("a", "b:c")
  {
  }

  /** For account ids without a colon the key tells the pair apart. */
  lemma ReportKeyInjective(a1: string, t1: string, a2: string, t2: string)
    requires ':' !in a1 && ':' !in a2
    requires ReportKey(a1, t1) == ReportKey(a2, t2)
    ensures a1 == a2 && t1 == t2
  {
  }

  /** `lastReportAt.get(key) || 0`. */
  function LastReport(lastReportAt: map<string, int>, key: string): int
  {
    if key in lastReportAt then lastReportAt[key] else 0
  }

  /** The test of line 89, passed: at least the cooldown has gone by since the key's last report. */
  predicate Accepts(lastReportAt: map<string, int>, key: string, now: int)
  {
    now - LastReport(lastReportAt, key) >= ReportCooldownMs
  }

  /** The module-level lastReportAt map, and canAcceptReport on it. */
  class ReportLimiter {
    var lastReportAt: map<string, int>

    constructor ()
      ensures lastReportAt == map[]
    {
      lastReportAt := map[];
    }

    /** canAcceptReport; `now` is the clock reading Date.now() gives. */
    method CanAcceptReport(accountId: string, reportType: string, now: int) returns (accepted: bool)
      modifies this
      ensures var key := ReportKey(accountId, reportType);
        && accepted == Accepts(old(lastReportAt), key, now)
        && lastReportAt == if accepted then old(lastReportAt)[key := now] else old(lastReportAt)
    {
      var key := accountId + ":" + reportType;
      var last := if key in lastReportAt then lastReportAt[key] else 0;
      if now - last < ReportCooldownMs {
        return false;
      }
      lastReportAt := lastReportAt[key := now];
      return true;
    }

    /**
      The feedback route after authentication: nothing is posted when reports
      are disabled or the cooldown refuses the report; otherwise the report is
      posted with its embed fields. `dbUsername` is what the account lookup
      gives ("" when it finds nothing or fails).
     */
    method HandleFeedback(enabled: bool, urlType: string, caller: Caller, form: FeedbackForm,
                          correlationId: string, dbUsername: string, now: int)
      returns (posted: bool, fields: seq<Field>)
      modifies this
      ensures !enabled ==> !posted && lastReportAt == old(lastReportAt)
      ensures enabled ==>
        var key := ReportKey(ReportAccountId(caller, form), NormalizeType(urlType, form.feedbackType));
        && posted == Accepts(old(lastReportAt), key, now)
        && lastReportAt == Record(old(lastReportAt), key, now)
      ensures fields == if posted then FeedbackFields(urlType, caller, form, correlationId, dbUsername) else []
    {
      if !enabled {
        return false, [];
      }
      var reportType := NormalizeType(urlType, form.feedbackType);
      var accountId := ReportAccountId(caller, form);
      posted := CanAcceptReport(accountId, reportType, now);
      if !posted {
        return false, [];
      }
      fields := FeedbackFields(urlType, caller, form, correlationId, dbUsername);
    }
  }

  /** The map after one call of canAcceptReport. */
  function Record(lastReportAt: map<string, int>, key: string, now: int): map<string, int>
  {
    if Accepts(lastReportAt, key, now) then lastReportAt[key := now] else lastReportAt
  }

  /** Once a report for a key is accepted, the next one for that key is accepted iff the cooldown has gone by. */
  lemma CooldownWindow(lastReportAt: map<string, int>, key: string, now: int, later: int)
    requires Accepts(lastReportAt, key, now)
    ensures Accepts(Record(lastReportAt, key, now), key, later) <==> later >= now + ReportCooldownMs
  {
  }

  /** A refused report does not restart the cooldown. */
  lemma RefusalKeepsCooldown(lastReportAt: map<string, int>, key: string, now: int, later: int)
    requires !Accepts(lastReportAt, key, now)
    ensures Accepts(Record(lastReportAt, key, now), key, later) == Accepts(lastReportAt, key, later)
  {
  }

  /** Cooldowns of different keys do not interact. */
  lemma CooldownsIndependent(lastReportAt: map<string, int>, key: string, other: string, now: int, later: int)
    requires key != other
    ensures Accepts(Record(lastReportAt, key, now), other, later) == Accepts(lastReportAt, other, later)
    ensures LastReport(Record(lastReportAt, key, now), other) == LastReport(lastReportAt, other)
  {
  }

  /** A key never seen counts as last reported at time 0. */
  lemma FirstReport(lastReportAt: map<string, int>, key: string, now: int)
    requires key !in lastReportAt
    ensures Accepts(lastReportAt, key, now) <==> now >= ReportCooldownMs
  {
  }

  // ---------------------------------------------------------------------------
  // Embed fields

  /** The signed-in user (accountId, username), "" for each part that is absent. */
  datatype Caller = Caller(accountId: string, username: string)

  /** The multipart form fields of a feedback report. */
  datatype FeedbackForm = FeedbackForm(
    feedbackType: string, displayName: string, email: string, accountId: string,
    engineVersion: string, platform: string, gameBackend: string, gameName: string,
    subGameName: string, subject: string, feedbackBody: string)

  datatype Field = Field(name: string, value: string, inline: bool)

  /** `req.user?.accountId || req.body?.accountid || "unknown"`. */
  function ReportAccountId(caller: Caller, form: FeedbackForm): string
  {
    OrElse(OrElse(caller.accountId, form.accountId), "unknown")
  }

  /** `req.body?.displayname || req.user?.username || "Unknown"`. */
  function ReporterName(caller: Caller, form: FeedbackForm): string
  {
    OrElse(OrElse(form.displayName, caller.username), "Unknown")
  }

  /**
    Lines 152 and 159 take the first non-empty of their candidates, and their
    last fallbacks are non-empty, so neither figure is ever "".
  */
  lemma ReporterFallbacks(caller: Caller, form: FeedbackForm)
    ensures var a := ReportAccountId(caller, form);
      && a != ""
      && (caller.accountId != "" ==> a == caller.accountId)
      && (caller.accountId == "" && form.accountId != "" ==> a == form.accountId)
      && (caller.accountId == "" && form.accountId == "" ==> a == "unknown")
    ensures var n := ReporterName(caller, form);
      && n != ""
      && (form.displayName != "" ==> n == form.displayName)
      && (form.displayName == "" && caller.username != "" ==> n == caller.username)
      && (form.displayName == "" && caller.username == "" ==> n == "Unknown")
  {
  }

  /** `x || "-"`. */
  function Dash(s: string): (r: string)
    ensures r != "" && (s != "" ==> r == s)
  {
    OrElse(s, "-")
  }

  const BaseNames: seq<string> := ["Reporter", "AccountId", "Type", "Subject", "Body", "Platform", "EngineVersion", "Game"]

  /** Lines 170-179: the eight fields every report has. */
  function BaseFields(caller: Caller, form: FeedbackForm, reportType: string): seq<Field>
  {
    [ Field("Reporter", Dash(ReporterName(caller, form)), true),
      Field("AccountId", Dash(ReportAccountId(caller, form)), true),
      Field("Type", reportType, true),
      Field("Subject", Dash(form.subject), false),
      Field("Body", Take(Dash(form.feedbackBody), 1024), false),
      Field("Platform", Dash(form.platform), true),
      Field("EngineVersion", Dash(form.engineVersion), true),
      Field("Game", Dash(form.gameBackend) + " / " + Dash(form.gameName) + " / " + Dash(form.subGameName), false) ]
  }

  /** Lines 192-193: the name on the account record is shown when there is one and it is not the reporter's. */
  predicate ShowsDbUsername(caller: Caller, form: FeedbackForm, dbUsername: string)
  {
    dbUsername != "" && dbUsername != ReporterName(caller, form)
  }

  /** The field that unshift puts first, if any. */
  function DbUsernameFields(caller: Caller, form: FeedbackForm, dbUsername: string): seq<Field>
  {
    if ShowsDbUsername(caller, form, dbUsername) then [Field("DB Username", dbUsername, true)] else []
  }

  /** Lines 181-187: the fields pushed after the eight, if any. */
  function OptionalFields(email: string, correlationId: string): seq<Field>
  {
    (if email != "" then [Field("Email", Take(email, 256), false)] else []) +
    (if correlationId != "" then [Field("X-Epic-Correlation-ID", Take(correlationId, 256), false)] else [])
  }

  /**
    Lines 151-193: the embed fields of a feedback report. `urlType` is the
    route's `:type`, `correlationId` the X-Epic-Correlation-ID header, and
    `dbUsername` the username of the account record ("" when there is none or
    the lookup fails).
   */
  function FeedbackFields(urlType: string, caller: Caller, form: FeedbackForm, correlationId: string, dbUsername: string): (r: seq<Field>)
    ensures |r| == |DbUsernameFields(caller, form, dbUsername)| + 8 + |OptionalFields(form.email, correlationId)|
  {
    DbUsernameFields(caller, form, dbUsername)
      + BaseFields(caller, form, NormalizeType(urlType, form.feedbackType))
      + OptionalFields(form.email, correlationId)
  }

  /** The names of a list of fields, in order. */
  function Names(fields: seq<Field>): seq<string>
  {
    seq(|fields|, i requires 0 <= i < |fields| => fields[i].name)
  }

  lemma NamesAppend(a: seq<Field>, b: seq<Field>)
    ensures Names(a + b) == Names(a) + Names(b)
  {
  }

  /**
    The fields come in a fixed order: "DB Username" first when it is shown,
    then the eight base fields, then "Email" when there is an address, then
    "X-Epic-Correlation-ID" when the header is present.
   */
  lemma BaseFieldNames(caller: Caller, form: FeedbackForm, reportType: string)
    ensures Names(BaseFields(caller, form, reportType)) == BaseNames
  {
    var base := BaseFields(caller, form, reportType);
    assert forall i :: 0 <= i < 8 ==> Names(base)[i] == BaseNames[i];
  }

  lemma OptionalFieldNames(email: string, correlationId: string)
    ensures Names(OptionalFields(email, correlationId)) ==
      (if email != "" then ["Email"] else []) + (if correlationId != "" then ["X-Epic-Correlation-ID"] else [])
  {
    var e := if email != "" then [Field("Email", Take(email, 256), false)] else [];
    var c := if correlationId != "" then [Field("X-Epic-Correlation-ID", Take(correlationId, 256), false)] else [];
    NamesAppend(e, c);
  }

  lemma FeedbackFieldNames(urlType: string, caller: Caller, form: FeedbackForm, correlationId: string, dbUsername: string)
    ensures Names(FeedbackFields(urlType, caller, form, correlationId, dbUsername)) ==
      (if ShowsDbUsername(caller, form, dbUsername) then ["DB Username"] else []) + BaseNames
      + (if form.email != "" then ["Email"] else []) + (if correlationId != "" then ["X-Epic-Correlation-ID"] else [])
  {
    var db := DbUsernameFields(caller, form, dbUsername);
    var base := BaseFields(caller, form, NormalizeType(urlType, form.feedbackType));
    var opt := OptionalFields(form.email, correlationId);
    NamesAppend(db + base, opt);
    NamesAppend(db, base);
    BaseFieldNames(caller, form, NormalizeType(urlType, form.feedbackType));
    OptionalFieldNames(form.email, correlationId);
    assert Names(db) == if ShowsDbUsername(caller, form, dbUsername) then ["DB Username"] else [];
  }

  /** "DB Username" is the first field exactly when the record's name is shown. */
  lemma DbUsernameFirst(urlType: string, caller: Caller, form: FeedbackForm, correlationId: string, dbUsername: string)
    ensures var r := FeedbackFields(urlType, caller, form, correlationId, dbUsername);
      ShowsDbUsername(caller, form, dbUsername) <==> r[0] == Field("DB Username", dbUsername, true)
  {
  }

  /**
    No field is empty: the reporter and account id are the resolved figures,
    every given value is shown as is and every missing one as "-", the type is
    never empty, and the body is cut to its first 1024 characters.
   */
  lemma BaseFieldValues(caller: Caller, form: FeedbackForm, reportType: string)
    requires reportType != ""
    ensures var r := BaseFields(caller, form, reportType);
      && (forall i :: 0 <= i < 8 ==> r[i].value != "")
      && r[0].value == ReporterName(caller, form)
      && r[1].value == ReportAccountId(caller, form)
      && r[2].value == reportType
      && (form.subject != "" ==> r[3].value == form.subject)
      && (form.platform != "" ==> r[5].value == form.platform)
      && (form.engineVersion != "" ==> r[6].value == form.engineVersion)
      && r[7].value == Dash(form.gameBackend) + " / " + Dash(form.gameName) + " / " + Dash(form.subGameName)
      && (form.gameBackend != "" && form.gameName != "" && form.subGameName != "" ==>
            r[7].value == form.gameBackend + " / " + form.gameName + " / " + form.subGameName)
      && |r[4].value| <= 1024
      && (form.feedbackBody == "" ==> r[4].value == "-")
      && (form.feedbackBody != "" ==> r[4].value == form.feedbackBody[..|r[4].value|])
      && (|form.feedbackBody| <= 1024 ==> r[4].value == Dash(form.feedbackBody))
      && (|form.feedbackBody| > 1024 ==> r[4].value == form.feedbackBody[..1024])
      && (form.subject == "" ==> r[3].value == "-")
      && (form.platform == "" ==> r[5].value == "-")
      && (form.engineVersion == "" ==> r[6].value == "-")
  {
    ReporterFallbacks(caller, form);
  }

  /** The e-mail address and the correlation id are cut to their first 256 characters. */
  lemma OptionalFieldValues(email: string, correlationId: string)
    ensures var r := OptionalFields(email, correlationId);
      && (forall i :: 0 <= i < |r| ==> r[i].value != "" && |r[i].value| <= 256)
      && (email != "" ==> r[0].value == email[..|r[0].value|])
      && (correlationId != "" ==> r[|r| - 1].value == correlationId[..|r[|r| - 1].value|])
      && (email != "" && |email| <= 256 ==> r[0].value == email)
      && (|email| > 256 ==> r[0].value == email[..256])
      && (correlationId != "" && |correlationId| <= 256 ==> r[|r| - 1].value == correlationId)
      && (|correlationId| > 256 ==> r[|r| - 1].value == correlationId[..256])
  {
  }
}
