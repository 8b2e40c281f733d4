/**
 * The settings routes of the API server: the profile (name, email, time
 * zone, pronouns, notification switches) and the integrations (two keys and
 * two switches) of the single default user. The three tables the routes
 * read and write are the fields of `SettingsStore`; the SQL itself is not
 * modelled, only what each statement leaves in the rows.
 */
module Settings {
  import opened JsValues
  import opened JsText

  const DefaultFullName := "StudyPal Student"
  const DefaultEmail := "student@example.com"
  const DefaultTimezone := "America/New_York"
  const DefaultPronouns := "she/her"

  const NameRequiredMessage := "Full name is required"
  const EmailRequiredMessage := "A valid email is required"

  datatype Notifications = Notifications(digest: bool, reminders: bool, aiInsights: bool, product: bool)

  const DefaultNotifications := Notifications(true, true, false, false)

  /** The four switches as the JSON object that is stored and returned. */
  function NotificationsJson(n: Notifications): (j: Json)
    ensures j.JObj? && j.fields.Keys == {"digest", "reminders", "aiInsights", "product"}
    ensures Truthy(j.fields["digest"]) == n.digest && Truthy(j.fields["product"]) == n.product
    ensures Truthy(j.fields["reminders"]) == n.reminders && Truthy(j.fields["aiInsights"]) == n.aiInsights
    ensures j.fields["digest"] == JBool(n.digest) && j.fields["reminders"] == JBool(n.reminders)
    ensures j.fields["aiInsights"] == JBool(n.aiInsights) && j.fields["product"] == JBool(n.product)
  {
    JObj(map["digest" := JBool(n.digest), "reminders" := JBool(n.reminders),
             "aiInsights" := JBool(n.aiInsights), "product" := JBool(n.product)])
  }

  /** Whether `Boolean(v[key])` holds for a value that is not null. */
  predicate FlagOn(v: Json, key: string)
    requires !v.JNull?
  {
    TruthyOpt(Field(v, key))
  }

  /**
   * `normalizeNotifications(input = {})`: each switch is the truthiness of
   * the property of that name. An absent input turns every switch off, not
   * back to the defaults; a `null` input throws (`None`), since reading a
   * property of null is a TypeError.
   */
  function NormalizeNotifications(input: Option<Json>): (r: Option<Notifications>)
    ensures r.None? <==> input == Some(JNull)
    ensures input.None? ==> r == Some(Notifications(false, false, false, false))
    ensures input.Some? && !input.value.JObj? && !input.value.JNull? ==>
      r == Some(Notifications(false, false, false, false))
    ensures input.Some? && input.value.JObj? ==>
      r == Some(Notifications(FlagOn(input.value, "digest"), FlagOn(input.value, "reminders"),
                              FlagOn(input.value, "aiInsights"), FlagOn(input.value, "product")))
  {
    match input
    case None => Some(Notifications(false, false, false, false))
    case Some(v) =>
      if v.JNull? then None
      else Some(Notifications(FlagOn(v, "digest"), FlagOn(v, "reminders"), FlagOn(v, "aiInsights"), FlagOn(v, "product")))
  }

  /** Normalising the stored form of some switches gives those switches back. */
  lemma NormalizeStoredNotifications(n: Notifications)
    ensures NormalizeNotifications(Some(NotificationsJson(n))) == Some(n)
  {
  }

  /** Normalisation is idempotent: normalising its own output changes nothing. */
  lemma NormalizeIdempotent(input: Option<Json>)
    requires NormalizeNotifications(input).Some?
    ensures NormalizeNotifications(Some(NotificationsJson(NormalizeNotifications(input).value)))
         == NormalizeNotifications(input)
  {
    NormalizeStoredNotifications(NormalizeNotifications(input).value);
  }

  /** Neither whitespace (`\s`) nor `@`: the class `[^\s@]` of the email pattern. */
  predicate EmailChar(c: char) {
    c != '@' && !IsWhitespace(c)
  }

  /**
   * `s` has the shape `L@X.Y` of `/^[^\s@]+@[^\s@]+\.[^\s@]+$/` with the `@`
   * at `at` and the separating dot at `dot`: the three pieces non-empty and
   * every other character in `[^\s@]` (a dot included, so `X` may hold dots).
   */
  ghost predicate EmailShape(s: string, at: int, dot: int) {
    && 1 <= at && at + 2 <= dot && dot + 2 <= |s|
    && s[at] == '@' && s[dot] == '.'
    && forall k :: 0 <= k < |s| && k != at ==> EmailChar(s[k])
  }

  /** `EMAIL_REGEX.test(s)`. */
  ghost predicate MatchesEmailPattern(s: string) {
    exists at, dot :: EmailShape(s, at, dot)
  }

  /** The executable check: no whitespace, one `@` after a non-empty local part, and a dot strictly inside the domain. */
  predicate IsValidEmail(s: string) {
    && NoWhitespace(s)
    && match IndexOf(s, '@')
       case None => false
       case Some(at) =>
         var domain := s[at + 1..];
         && at >= 1
         && '@' !in domain
         && |domain| >= 3
         && '.' in domain[1..|domain| - 1]
  }

  /** The executable check accepts exactly the strings the pattern matches. */
  lemma EmailCheckMatchesPattern(s: string)
    ensures IsValidEmail(s) <==> MatchesEmailPattern(s)
  {
    if IsValidEmail(s) {
      var at := IndexOf(s, '@').value;
      var domain := s[at + 1..];
      var inner := domain[1..|domain| - 1];
      var k :| 0 <= k < |inner| && inner[k] == '.';
      var dot := at + 2 + k;
      assert s[dot] == '.';
      forall i | 0 <= i < |s| && i != at
        ensures EmailChar(s[i])
      {
        if i > at {
          assert s[i] == domain[i - at - 1];
        } else {
          assert s[i] == s[..at][i];
        }
      }
      assert EmailShape(s, at, dot);
    }
    if MatchesEmailPattern(s) {
      var at, dot :| EmailShape(s, at, dot);
      assert NoWhitespace(s) by {
        assert !IsWhitespace(s[at]);
      }
      assert '@' in s;
      var found := IndexOf(s, '@').value;
      assert found == at by {
        assert s[found] == '@';
      }
      var domain := s[at + 1..];
      assert '@' !in domain by {
        forall i | 0 <= i < |domain|
          ensures domain[i] != '@'
        {
          assert domain[i] == s[at + 1 + i];
        }
      }
      assert domain[1..|domain| - 1][dot - at - 2] == '.';
    }
  }

  /** The JSON body of `PUT /profile`; `None` where a property is absent (or the whole body is). */
  datatype ProfileBody = ProfileBody(fullName: Option<string>, email: Option<string>, timezone: Option<string>,
                                     pronouns: Option<string>, notifications: Option<Json>)

  /** The values `PUT /profile` writes once the body is accepted. */
  datatype ProfileUpdate = ProfileUpdate(fullName: string, email: string, timezone: string,
                                         pronouns: string, notifications: Notifications)

  /** The answer to the body: 400 with a message, an error passed to `next` (500), or the values to save. */
  datatype ProfileCheck = BadRequest(message: string) | Forwarded | Accepted(update: ProfileUpdate)

  /** `!fullName || !fullName.trim()`. */
  predicate NameMissing(name: Option<string>) {
    name.None? || name.value == "" || Trim(name.value) == ""
  }

  /** `!email || !EMAIL_REGEX.test(email)`. */
  predicate EmailRejected(email: Option<string>) {
    email.None? || email.value == "" || !IsValidEmail(email.value)
  }

  /**
   * The checks of `PUT /profile`, in order: the name, then the email, then
   * notifications that can be read. An accepted body is saved trimmed and
   * lower-cased, with the default time zone for an empty one and empty
   * pronouns for absent ones.
   */
  function CheckProfile(body: ProfileBody): (r: ProfileCheck)
    ensures r == BadRequest(NameRequiredMessage) <==> NameMissing(body.fullName)
    ensures r == BadRequest(EmailRequiredMessage) <==> !NameMissing(body.fullName) && EmailRejected(body.email)
    ensures r.Forwarded? <==>
      !NameMissing(body.fullName) && !EmailRejected(body.email) && body.notifications == Some(JNull)
    ensures r.Accepted? <==>
      !NameMissing(body.fullName) && !EmailRejected(body.email) && body.notifications != Some(JNull)
    ensures r.Accepted? ==>
      && !NameMissing(body.fullName) && !EmailRejected(body.email)
      && r.update.fullName == Trim(body.fullName.value)
      && r.update.email == ToLowerAscii(body.email.value)
      && r.update.timezone == (if body.timezone.None? || body.timezone.value == "" then DefaultTimezone
                               else body.timezone.value)
      && r.update.pronouns == (if body.pronouns.None? then "" else body.pronouns.value)
      && Some(r.update.notifications) == NormalizeNotifications(body.notifications)
  {
    if NameMissing(body.fullName) then BadRequest(NameRequiredMessage)
    else if EmailRejected(body.email) then BadRequest(EmailRequiredMessage)
    else
      match NormalizeNotifications(body.notifications)
      case None => Forwarded
      case Some(notifications) =>
        var timezone := if body.timezone.None? || body.timezone.value == "" then DefaultTimezone else body.timezone.value;
        var pronouns := if body.pronouns.None? then "" else body.pronouns.value;
        Accepted(ProfileUpdate(Trim(body.fullName.value), ToLowerAscii(body.email.value), timezone, pronouns, notifications))
  }

  /**
   * The two 400 answers in the pattern's own terms: a name is refused
   * exactly when it is absent or all whitespace, and an email exactly when
   * it is absent or does not match the pattern. An accepted name is never
   * empty once trimmed.
   */
  lemma ProfileRejections(body: ProfileBody)
    ensures NameMissing(body.fullName) <==> body.fullName.None? || AllWhitespace(body.fullName.value)
    ensures EmailRejected(body.email) <==> body.email.None? || !MatchesEmailPattern(body.email.value)
    ensures CheckProfile(body).Accepted? ==> CheckProfile(body).update.fullName != ""
  {
    if body.fullName.Some? {
      TrimEmptyIff(body.fullName.value);
    }
    if body.email.Some? {
      EmailCheckMatchesPattern(body.email.value);
    }
  }

  /** The `users` row of the default user; columns may be null. */
  datatype Account = Account(name: Option<string>, email: Option<string>)

  /** The `user_profiles` row; columns may be null. */
  datatype ProfileRow = ProfileRow(fullName: Option<string>, timezone: Option<string>,
                                   pronouns: Option<string>, notifications: Option<Json>)

  /** The `user_integrations` row; columns may be null. */
  datatype IntegrationsRow = IntegrationsRow(geminiKey: Option<string>, calendarKey: Option<string>,
                                             syncCalendar: Option<bool>, autoPushTasks: Option<bool>)

  datatype Profile = Profile(fullName: string, email: string, timezone: string, pronouns: string,
                             notifications: map<string, Json>)

  datatype Integrations = Integrations(geminiKey: string, calendarKey: string, syncCalendar: bool, autoPushTasks: bool)

  const DefaultIntegrations := Integrations("", "", false, true)

  /**
   * `buildProfilePayload`: each field from the profile row, then (for the
   * name) the account, then the defaults, skipping only null; the stored
   * notification object spread over the default switches.
   */
  function ProfilePayload(account: Option<Account>, row: Option<ProfileRow>): (p: Profile)
    ensures row.Some? && row.value.fullName.Some? ==> p.fullName == row.value.fullName.value
    ensures (row.None? || row.value.fullName.None?) && account.Some? && account.value.name.Some? ==>
      p.fullName == account.value.name.value
    ensures (row.None? || row.value.fullName.None?) && (account.None? || account.value.name.None?) ==>
      p.fullName == DefaultFullName
    ensures p.email == (if account.Some? && account.value.email.Some? then account.value.email.value else DefaultEmail)
    ensures p.timezone == (if row.Some? && row.value.timezone.Some? then row.value.timezone.value else DefaultTimezone)
    ensures p.pronouns == (if row.Some? && row.value.pronouns.Some? then row.value.pronouns.value else DefaultPronouns)
    ensures p.notifications.Keys >= {"digest", "reminders", "aiInsights", "product"}
    ensures p.notifications.Keys == NotificationsJson(DefaultNotifications).fields.Keys +
      (if row.Some? && row.value.notifications.Some? then Spread(row.value.notifications.value).Keys else {})
    ensures forall k :: k in NotificationsJson(DefaultNotifications).fields &&
                        (row.None? || row.value.notifications.None? || k !in Spread(row.value.notifications.value)) ==>
      p.notifications[k] == NotificationsJson(DefaultNotifications).fields[k]
    ensures row.Some? && row.value.notifications.Some? ==>
      forall k :: k in Spread(row.value.notifications.value) ==>
        k in p.notifications && p.notifications[k] == Spread(row.value.notifications.value)[k]
  {
    var stored := if row.Some? && row.value.notifications.Some? then Spread(row.value.notifications.value) else map[];
    Profile(
      if row.Some? && row.value.fullName.Some? then row.value.fullName.value
      else if account.Some? && account.value.name.Some? then account.value.name.value
      else DefaultFullName,
      if account.Some? then OrElse(account.value.email, DefaultEmail) else DefaultEmail,
      if row.Some? then OrElse(row.value.timezone, DefaultTimezone) else DefaultTimezone,
      if row.Some? then OrElse(row.value.pronouns, DefaultPronouns) else DefaultPronouns,
      NotificationsJson(DefaultNotifications).fields + stored)
  }

  /** `buildIntegrationsPayload`: each column of the row, or its default when the row or the column is null. */
  function IntegrationsPayload(row: Option<IntegrationsRow>): (i: Integrations)
    ensures row.None? ==> i == DefaultIntegrations
    ensures row.Some? ==> i == Integrations(OrElse(row.value.geminiKey, DefaultIntegrations.geminiKey),
                                           OrElse(row.value.calendarKey, DefaultIntegrations.calendarKey),
                                           OrElse(row.value.syncCalendar, DefaultIntegrations.syncCalendar),
                                           OrElse(row.value.autoPushTasks, DefaultIntegrations.autoPushTasks))
  {
    if row.None? then DefaultIntegrations
    else Integrations(OrElse(row.value.geminiKey, DefaultIntegrations.geminiKey),
                      OrElse(row.value.calendarKey, DefaultIntegrations.calendarKey),
                      OrElse(row.value.syncCalendar, DefaultIntegrations.syncCalendar),
                      OrElse(row.value.autoPushTasks, DefaultIntegrations.autoPushTasks))
  }

  /**
   * A missing row and a row whose columns are all null read the same: the
   * default integrations. A column that holds a value is read as stored.
   */
  lemma {:induction false} NullColumnsReadAsDefaults(row: IntegrationsRow)
    ensures IntegrationsPayload(Some(IntegrationsRow(None, None, None, None))) == IntegrationsPayload(None)
    ensures row.geminiKey.Some? ==> IntegrationsPayload(Some(row)).geminiKey == row.geminiKey.value
    ensures row.calendarKey.Some? ==> IntegrationsPayload(Some(row)).calendarKey == row.calendarKey.value
    ensures row.syncCalendar.Some? ==> IntegrationsPayload(Some(row)).syncCalendar == row.syncCalendar.value
    ensures row.autoPushTasks.Some? ==> IntegrationsPayload(Some(row)).autoPushTasks == row.autoPushTasks.value
  {
  }

  /** A key property of the `PUT /integrations` body: absent, explicitly null, or a string. */
  datatype KeyField = Absent | NullKey | KeyText(text: string)

  datatype IntegrationsBody = IntegrationsBody(geminiKey: KeyField, calendarKey: KeyField,
                                               syncCalendar: Option<Json>, autoPushTasks: Option<Json>)

  /** The column a key is stored in: the destructuring default `''` replaces only an absent key, so null is stored. */
  function StoredKey(k: KeyField): (c: Option<string>)
    ensures k.Absent? ==> c == Some("")
    ensures k.NullKey? ==> c.None?
    ensures k.KeyText? ==> c == Some(k.text)
  {
    match k
    case Absent => Some("")
    case NullKey => None
    case KeyText(t) => Some(t)
  }

  /** `Boolean(x = fallback)`: the default replaces only an absent switch; null is false. */
  function StoredSwitch(x: Option<Json>, fallback: bool): (b: bool)
    ensures x.None? ==> b == fallback
    ensures x.Some? ==> b == Truthy(x.value)
  {
    if x.None? then fallback else Truthy(x.value)
  }

  /** The row `PUT /integrations` upserts. */
  function StoredIntegrations(body: IntegrationsBody): (row: IntegrationsRow)
    ensures row.syncCalendar.Some? && row.autoPushTasks.Some?
  {
    IntegrationsRow(StoredKey(body.geminiKey), StoredKey(body.calendarKey),
                    Some(StoredSwitch(body.syncCalendar, false)), Some(StoredSwitch(body.autoPushTasks, true)))
  }

  /**
   * What `GET /integrations` returns after `PUT /integrations`: the keys sent
   * (empty for an absent or null one) and the truthiness of the switches
   * sent, with `syncCalendar` off and `autoPushTasks` on when absent.
   */
  lemma IntegrationsRoundTrip(body: IntegrationsBody)
    ensures var i := IntegrationsPayload(Some(StoredIntegrations(body)));
      && i.geminiKey == (if body.geminiKey.KeyText? then body.geminiKey.text else "")
      && i.calendarKey == (if body.calendarKey.KeyText? then body.calendarKey.text else "")
      && i.syncCalendar == TruthyOpt(body.syncCalendar)
      && i.autoPushTasks == (body.autoPushTasks.None? || Truthy(body.autoPushTasks.value))
  {
  }

  /** Saving and reading back the integrations a `GET` returned leaves them as they were. */
  lemma IntegrationsResaveStable(i: Integrations)
    ensures IntegrationsPayload(Some(StoredIntegrations(
              IntegrationsBody(KeyText(i.geminiKey), KeyText(i.calendarKey),
                               Some(JBool(i.syncCalendar)), Some(JBool(i.autoPushTasks)))))) == i
  {
  }

  /** What the rows hold after an accepted `PUT /profile`. */
  function SavedAccount(u: ProfileUpdate): Account {
    Account(Some(u.fullName), Some(u.email))
  }

  function SavedProfileRow(u: ProfileUpdate): ProfileRow {
    ProfileRow(Some(u.fullName), Some(u.timezone), Some(u.pronouns), Some(NotificationsJson(u.notifications)))
  }

  /**
   * What `PUT /profile` answers after saving: exactly the values it saved.
   * In particular empty pronouns stay empty, and the stored switches replace
   * every default switch.
   */
  lemma {:induction false} ProfileRoundTrip(u: ProfileUpdate)
    ensures ProfilePayload(Some(SavedAccount(u)), Some(SavedProfileRow(u))) ==
      Profile(u.fullName, u.email, u.timezone, u.pronouns, NotificationsJson(u.notifications).fields)
  {
    var merged := NotificationsJson(DefaultNotifications).fields + NotificationsJson(u.notifications).fields;
    assert merged == NotificationsJson(u.notifications).fields;
  }

  /** A body that passes the checks is echoed back: the saved profile is the trimmed name and the lower-cased email sent. */
  lemma AcceptedProfileEchoed(body: ProfileBody)
    requires CheckProfile(body).Accepted?
    ensures var u := CheckProfile(body).update;
      var p := ProfilePayload(Some(SavedAccount(u)), Some(SavedProfileRow(u)));
      && p.fullName == Trim(body.fullName.value)
      && p.email == ToLowerAscii(body.email.value)
      && NormalizeNotifications(Some(JObj(p.notifications))) == NormalizeNotifications(body.notifications)
  {
    var u := CheckProfile(body).update;
    ProfileRoundTrip(u);
    NormalizeStoredNotifications(u.notifications);
  }

  /** With nothing stored, the profile is the default one. */
  lemma {:induction false} DefaultProfile()
    ensures ProfilePayload(Some(Account(Some(DefaultFullName), Some(DefaultEmail))), None) ==
      Profile(DefaultFullName, DefaultEmail, DefaultTimezone, DefaultPronouns, NotificationsJson(DefaultNotifications).fields)
  {
    assert NotificationsJson(DefaultNotifications).fields + map[] == NotificationsJson(DefaultNotifications).fields;
  }

  /** The three rows the routes read and write for the default user. */
  class SettingsStore {
    var account: Option<Account>
    var profileRow: Option<ProfileRow>
    var integrationsRow: Option<IntegrationsRow>

    constructor(account: Option<Account>, profileRow: Option<ProfileRow>, integrationsRow: Option<IntegrationsRow>)
      ensures this.account == account && this.profileRow == profileRow && this.integrationsRow == integrationsRow
    {
      this.account := account;
      this.profileRow := profileRow;
      this.integrationsRow := integrationsRow;
    }

    /** `fetchUserAccount`: the user row, inserted with the default name and email when missing. */
    method FetchUserAccount() returns (user: Account)
      modifies this`account
      ensures old(account).Some? ==> account == old(account)
      ensures old(account).None? ==> account == Some(Account(Some(DefaultFullName), Some(DefaultEmail)))
      ensures account == Some(user)
    {
      if account.None? {
        account := Some(Account(Some(DefaultFullName), Some(DefaultEmail)));
      }
      user := account.value;
    }

    /** `GET /profile`. */
    method GetProfile() returns (profile: Profile)
      modifies this`account
      ensures old(account).Some? ==> account == old(account)
      ensures old(account).None? ==> account == Some(Account(Some(DefaultFullName), Some(DefaultEmail)))
      ensures profile == ProfilePayload(account, profileRow)
    {
      var user := FetchUserAccount();
      profile := ProfilePayload(Some(user), profileRow);
    }

    /**
     * `PUT /profile`: on an accepted body the user row takes the trimmed name
     * and the lower-cased email, the profile row the rest, and the answer is
     * the profile read back; otherwise nothing is written.
     */
    method PutProfile(body: ProfileBody) returns (outcome: ProfileCheck, profile: Option<Profile>)
      modifies this`account, this`profileRow
      ensures outcome == CheckProfile(body)
      ensures !outcome.Accepted? ==> account == old(account) && profileRow == old(profileRow) && profile.None?
      ensures outcome.Accepted? ==>
        && account == Some(SavedAccount(outcome.update))
        && profileRow == Some(SavedProfileRow(outcome.update))
        && profile == Some(ProfilePayload(account, profileRow))
    {
      outcome := CheckProfile(body);
      if !outcome.Accepted? {
        profile := None;
        return;
      }
      var u := outcome.update;
      if account.None? {
        account := Some(Account(Some(u.fullName), Some(u.email)));
      }
      account := Some(Account(Some(u.fullName), Some(u.email)));
      profileRow := Some(ProfileRow(Some(u.fullName), Some(u.timezone), Some(u.pronouns), Some(NotificationsJson(u.notifications))));
      var p := GetProfile();
      profile := Some(p);
    }

    /** `GET /integrations`. */
    method GetIntegrations() returns (integrations: Integrations)
      ensures integrations == IntegrationsPayload(integrationsRow)
    {
      integrations := IntegrationsPayload(integrationsRow);
    }

    /**
     * `PUT /integrations`: the row is replaced by what the body gives, and the
     * answer is that row read back. The route does not create the user row
     * first, so without one the insert breaks the reference to `users`,
     * nothing is written and the error goes to `next` (`None`).
     */
    method PutIntegrations(body: IntegrationsBody) returns (integrations: Option<Integrations>)
      modifies this`integrationsRow
      ensures account.None? ==> integrationsRow == old(integrationsRow) && integrations.None?
      ensures account.Some? ==> integrationsRow == Some(StoredIntegrations(body))
      ensures account.Some? ==> integrations == Some(IntegrationsPayload(integrationsRow))
    {
      if account.None? {
        integrations := None;
        return;
      }
      integrationsRow := Some(StoredIntegrations(body));
      var read := GetIntegrations();
      integrations := Some(read);
    }
  }
}
