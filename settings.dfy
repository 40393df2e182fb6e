/**
 * `src/pages/Settings.tsx`: the admin-only settings page. Its state is the password form, the
 * Microsoft Graph settings record and a busy flag; the handlers change that state in place.
 */
module Settings {
  import opened Common
  import opened Auth
  import opened Guard
  import opened Validation

  datatype PasswordData = PasswordData(newPassword: string, confirmPassword: string)

  const EmptyPasswords := PasswordData("", "")

  datatype AdminSettings = AdminSettings(
    msGraphEnabled: bool,
    msGraphTenantId: string,
    msGraphClientId: string,
    msGraphClientSecret: string)

  const DefaultSettings := AdminSettings(false, "", "", "")

  datatype SettingsField = Enabled | TenantId | ClientId | ClientSecret

  datatype SettingValue = Flag(on: bool) | Text(s: string)

  /** The switch takes a boolean, the three inputs a string. */
  predicate Fits(field: SettingsField, value: SettingValue) {
    if field == Enabled then value.Flag? else value.Text?
  }

  function GetSetting(a: AdminSettings, field: SettingsField): SettingValue {
    match field
    case Enabled => Flag(a.msGraphEnabled)
    case TenantId => Text(a.msGraphTenantId)
    case ClientId => Text(a.msGraphClientId)
    case ClientSecret => Text(a.msGraphClientSecret)
  }

  /** `{ ...prev, [field]: value }`. */
  function WithSetting(a: AdminSettings, field: SettingsField, value: SettingValue): (r: AdminSettings)
    requires Fits(field, value)
    ensures GetSetting(r, field) == value
  {
    match field
    case Enabled => a.(msGraphEnabled := value.on)
    case TenantId => a.(msGraphTenantId := value.s)
    case ClientId => a.(msGraphClientId := value.s)
    case ClientSecret => a.(msGraphClientSecret := value.s)
  }

  /** A settings change sets the one field and leaves the other three as they were. */
  lemma WithSettingChangesOnlyThatField(a: AdminSettings, field: SettingsField, value: SettingValue, other: SettingsField)
    requires Fits(field, value) && other != field
    ensures GetSetting(WithSetting(a, field, value), other) == GetSetting(a, other)
  {
  }

  // ---------------------------------------------------------------- the stored row

  /** A row of `admin_settings`; the three text columns may be null. */
  datatype StoredRow = StoredRow(
    msGraphEnabled: bool,
    msGraphTenantId: Option<string>,
    msGraphClientId: Option<string>,
    msGraphClientSecret: Option<string>)

  /** What `.single()` answers: the row or null, and an error code or none. */
  datatype FetchReply = FetchReply(data: Option<StoredRow>, errorCode: Option<string>)

  /** The "no rows" error code of the backend, which the load does not treat as a failure. */
  const NoRowsCode := "PGRST116"

  /** Loading a row into the form: the flag is copied, a null text column becomes "". */
  function FromRow(row: StoredRow): AdminSettings {
    AdminSettings(row.msGraphEnabled, row.msGraphTenantId.GetOr(""), row.msGraphClientId.GetOr(""),
      row.msGraphClientSecret.GetOr(""))
  }

  /** The row `saveAdminSettings` upserts: all four fields as they are, the secret included. */
  function ToRow(a: AdminSettings): StoredRow {
    StoredRow(a.msGraphEnabled, Some(a.msGraphTenantId), Some(a.msGraphClientId), Some(a.msGraphClientSecret))
  }

  /**
   * `fetchAdminSettings`: nothing without a user, nothing on an error other than "no rows",
   * nothing without data; otherwise the loaded row replaces the whole record.
   */
  function SettingsAfterFetch(current: AdminSettings, hasUser: bool, reply: FetchReply): AdminSettings {
    if !hasUser then current
    else if reply.errorCode.Some? && reply.errorCode.value != NoRowsCode then current
    else if reply.data.Some? then FromRow(reply.data.value)
    else current
  }

  /** Null text columns load as "", and the flag is copied. */
  lemma NullsLoadAsEmpty(row: StoredRow)
    ensures FromRow(row).msGraphEnabled == row.msGraphEnabled
    ensures row.msGraphTenantId.None? ==> FromRow(row).msGraphTenantId == ""
    ensures row.msGraphClientId.None? ==> FromRow(row).msGraphClientId == ""
    ensures row.msGraphClientSecret.None? ==> FromRow(row).msGraphClientSecret == ""
  {
  }

  /** Saving then loading gives back the settings that were saved, the client secret included. */
  lemma SaveThenLoad(current: AdminSettings, saved: AdminSettings)
    ensures SettingsAfterFetch(current, true, FetchReply(Some(ToRow(saved)), None)) == saved
  {
  }

  /** A load that finds no row, or fails, leaves the form as it was. */
  lemma FailedLoadKeepsSettings(current: AdminSettings, code: string, data: Option<StoredRow>)
    ensures SettingsAfterFetch(current, true, FetchReply(None, Some(NoRowsCode))) == current
    ensures code != NoRowsCode ==> SettingsAfterFetch(current, true, FetchReply(data, Some(code))) == current
  {
  }

  // ---------------------------------------------------------------- the password form

  datatype PasswordOutcome = Mismatch | TooShort | UpdateFailed | Updated

  /** `handlePasswordChange`: mismatch first, then the length, then the update's answer. */
  function PasswordOutcomeOf(pd: PasswordData, updateSucceeds: bool): PasswordOutcome {
    if pd.newPassword != pd.confirmPassword then Mismatch
    else if |pd.newPassword| < 6 then TooShort
    else if updateSucceeds then Updated
    else UpdateFailed
  }

  /** The page's own check: the two entries agree and are at least 6 characters long. */
  predicate PageAccepts(pd: PasswordData) {
    pd.newPassword == pd.confirmPassword && |pd.newPassword| >= 6
  }

  /** A mismatch is reported whatever the length, so the length check never sees it. */
  lemma MismatchReportedFirst(pd: PasswordData, updateSucceeds: bool)
    requires pd.newPassword != pd.confirmPassword
    ensures PasswordOutcomeOf(pd, updateSucceeds) == Mismatch
  {
  }

  /** The update is attempted iff the page's check passes. */
  lemma UpdateAttemptedIff(pd: PasswordData, updateSucceeds: bool)
    ensures PasswordOutcomeOf(pd, updateSucceeds) in {UpdateFailed, Updated} <==> PageAccepts(pd)
  {
  }

  /** Every password the shared schema accepts passes the page's check. */
  lemma SchemaValidPassesPage(pd: PasswordData)
    requires PasswordFormValid(pd.newPassword, pd.confirmPassword)
    ensures PageAccepts(pd)
  {
    PasswordRule(pd.newPassword, pd.confirmPassword);
  }

  /**
   * The page's check is weaker than the schema's: a matching 6- or 7-character password is
   * sent to the update though the schema rejects it.
   */
  lemma PageWeakerThanSchema(pw: string)
    requires 6 <= |pw| < 8
    ensures PageAccepts(PasswordData(pw, pw)) && !PasswordFormValid(pw, pw)
  {
    PasswordRule(pw, pw);
  }

  /** `disabled={isLoading || newPassword !== confirmPassword}`. */
  predicate SubmitDisabled(isLoading: bool, pd: PasswordData) {
    isLoading || pd.newPassword != pd.confirmPassword
  }

  /** Through an enabled button a submit is never a mismatch. */
  lemma EnabledSubmitNeverMismatches(isLoading: bool, pd: PasswordData, updateSucceeds: bool)
    requires !SubmitDisabled(isLoading, pd)
    ensures PasswordOutcomeOf(pd, updateSucceeds) != Mismatch
    ensures PasswordOutcomeOf(pd, updateSucceeds) == TooShort <==> |pd.newPassword| < 6
  {
  }

  // ---------------------------------------------------------------- the redirect

  /** `!loading && (!user || !isAdmin())`: the page sends the visitor to `/`. */
  predicate Redirects(st: AuthState) {
    !st.loading && (!st.signedIn || !IsAdmin(st.profile))
  }

  /**
   * The page's own redirect fires exactly when the admin guard around it redirects, so a
   * page the guard renders never redirects.
   */
  lemma RedirectMatchesGuard(st: AuthState)
    ensures Redirects(st) <==> Decide(st, true, false).Redirect?
    ensures Decide(st, true, false) == RenderChildren ==> !Redirects(st)
  {
  }

  // ---------------------------------------------------------------- the page

  datatype SaveOutcome = NoUser | SaveFailed | Saved(row: StoredRow)

  class SettingsPage {
    var isLoading: bool
    var passwordData: PasswordData
    var adminSettings: AdminSettings

    constructor ()
      ensures !isLoading && passwordData == EmptyPasswords && adminSettings == DefaultSettings
    {
      isLoading := false;
      passwordData := EmptyPasswords;
      adminSettings := DefaultSettings;
    }

    /** The two password inputs. */
    method SetNewPassword(value: string)
      modifies this
      ensures passwordData == old(passwordData).(newPassword := value)
      ensures isLoading == old(isLoading) && adminSettings == old(adminSettings)
    {
      passwordData := passwordData.(newPassword := value);
    }

    method SetConfirmPassword(value: string)
      modifies this
      ensures passwordData == old(passwordData).(confirmPassword := value)
      ensures isLoading == old(isLoading) && adminSettings == old(adminSettings)
    {
      passwordData := passwordData.(confirmPassword := value);
    }

    /**
     * `updateSucceeds` is the answer `updatePassword` would give. Both fields are cleared
     * only after a successful update; the busy flag is left alone by the early returns and
     * is false once an update was attempted.
     */
    method HandlePasswordChange(updateSucceeds: bool) returns (outcome: PasswordOutcome)
      modifies this
      ensures outcome == PasswordOutcomeOf(old(passwordData), updateSucceeds)
      ensures passwordData == (if outcome == Updated then EmptyPasswords else old(passwordData))
      ensures isLoading == (if outcome == Mismatch || outcome == TooShort then old(isLoading) else false)
      ensures adminSettings == old(adminSettings)
    {
      if passwordData.newPassword != passwordData.confirmPassword {
        return Mismatch;
      }
      if |passwordData.newPassword| < 6 {
        return TooShort;
      }
      isLoading := true;
      if updateSucceeds {
        passwordData := EmptyPasswords;
        outcome := Updated;
      } else {
        outcome := UpdateFailed;
      }
      isLoading := false;
    }

    method HandleAdminSettingsChange(field: SettingsField, value: SettingValue)
      requires Fits(field, value)
      modifies this
      ensures adminSettings == WithSetting(old(adminSettings), field, value)
      ensures passwordData == old(passwordData) && isLoading == old(isLoading)
    {
      adminSettings := WithSetting(adminSettings, field, value);
    }

    /** `reply` is what the `admin_settings` query would answer. */
    method FetchAdminSettings(hasUser: bool, reply: FetchReply)
      modifies this
      ensures adminSettings == SettingsAfterFetch(old(adminSettings), hasUser, reply)
      ensures passwordData == old(passwordData) && isLoading == old(isLoading)
    {
      if !hasUser {
        return;
      }
      if reply.errorCode.Some? && reply.errorCode.value != NoRowsCode {
        return;
      }
      if reply.data.Some? {
        adminSettings := FromRow(reply.data.value);
      }
    }

    /** The upsert of the record as it stands; `saveSucceeds` is the backend's answer. */
    method SaveAdminSettings(hasUser: bool, saveSucceeds: bool) returns (outcome: SaveOutcome)
      modifies this
      ensures !hasUser ==> outcome == NoUser && isLoading == old(isLoading)
      ensures hasUser ==> !isLoading && outcome == (if saveSucceeds then Saved(ToRow(adminSettings)) else SaveFailed)
      ensures adminSettings == old(adminSettings) && passwordData == old(passwordData)
    {
      if !hasUser {
        return NoUser;
      }
      isLoading := true;
      var row := ToRow(adminSettings);
      outcome := if saveSucceeds then Saved(row) else SaveFailed;
      isLoading := false;
    }

    function Disabled(): bool
      reads this
    {
      SubmitDisabled(isLoading, passwordData)
    }
  }
}
