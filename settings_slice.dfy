/**
 * features/settings/settingsSlice.ts: the platform settings (four sections, absent until
 * loaded) and the loading, saving and error fields.
 */
module SettingsSlice {
  import opened Wrappers
  import opened Thunks
  import opened Entities

  datatype SettingsState = SettingsState(settings: Option<Settings>, loading: bool, error: Option<string>, saveLoading: bool)

  const InitialState := SettingsState(None, false, None, false)

  /** A section-update payload: the new value of one of the four sections. */
  datatype Section =
    | General(general: GeneralSettings)
    | Notifications(notifications: NotificationSettings)
    | Security(security: SecuritySettings)
    | Integrations(integrations: IntegrationSettings)

  /** `state.settings.<section> = payload`: the named section is replaced and the other three are kept. */
  function WriteSection(s: Settings, sec: Section): (r: Settings)
    ensures r.general == (if sec.General? then sec.general else s.general)
    ensures r.notifications == (if sec.Notifications? then sec.notifications else s.notifications)
    ensures r.security == (if sec.Security? then sec.security else s.security)
    ensures r.integrations == (if sec.Integrations? then sec.integrations else s.integrations)
  {
    match sec
    case General(g) => s.(general := g)
    case Notifications(n) => s.(notifications := n)
    case Security(c) => s.(security := c)
    case Integrations(i) => s.(integrations := i)
  }

  /** `if (state.settings) state.settings.<section> = payload`: settings that were never loaded stay absent. */
  function UpdateSection(s: Option<Settings>, sec: Section): (r: Option<Settings>)
    ensures s.None? <==> r.None?
    ensures s.Some? ==> r == Some(WriteSection(s.value, sec))
  {
    if s.Some? then Some(WriteSection(s.value, sec)) else None
  }

  /** Writing a section twice with the same payload is the same as writing it once. */
  lemma WriteSectionIdempotent(s: Settings, sec: Section)
    ensures WriteSection(WriteSection(s, sec), sec) == WriteSection(s, sec)
  {
  }

  class SettingsStore {
    var settings: Option<Settings>
    var loading: bool
    var error: Option<string>
    var saveLoading: bool

    function State(): SettingsState
      reads this
    {
      SettingsState(settings, loading, error, saveLoading)
    }

    constructor ()
      ensures State() == InitialState
    {
      settings, loading, error, saveLoading := None, false, None, false;
    }

    method ClearError()
      modifies this
      ensures State() == old(State()).(error := None)
    {
      error := None;
    }

    method FetchSettings(o: Outcome<Settings>)
      modifies this
      ensures match o
        case Pending => State() == old(State()).(loading := true, error := None)
        case Fulfilled(s) => State() == old(State()).(loading := false, settings := Some(s))
        case Rejected(m) =>
          State() == old(State()).(loading := false, error := Some(MessageOr(m, "Failed to fetch settings")))
    {
      match o
      case Pending =>
        loading := true;
        error := None;
      case Fulfilled(s) =>
        loading := false;
        settings := Some(s);
      case Rejected(m) =>
        loading := false;
        error := Some(MessageOr(m, "Failed to fetch settings"));
    }

    /** The only section update with pending and rejected handlers: it drives `saveLoading`. */
    method UpdateGeneralSettings(o: Outcome<GeneralSettings>)
      modifies this
      ensures match o
        case Pending => State() == old(State()).(saveLoading := true)
        case Fulfilled(g) =>
          State() == old(State()).(saveLoading := false, settings := UpdateSection(old(settings), General(g)))
        case Rejected(m) =>
          State() == old(State()).(saveLoading := false, error := Some(MessageOr(m, "Failed to update general settings")))
    {
      match o
      case Pending =>
        saveLoading := true;
      case Fulfilled(g) =>
        saveLoading := false;
        if settings.Some? {
          settings := Some(settings.value.(general := g));
        }
      case Rejected(m) =>
        saveLoading := false;
        error := Some(MessageOr(m, "Failed to update general settings"));
    }

    method UpdateNotificationSettings(o: Outcome<NotificationSettings>)
      modifies this
      ensures o.Fulfilled? ==> State() == old(State()).(settings := UpdateSection(old(settings), Notifications(o.payload)))
      ensures !o.Fulfilled? ==> State() == old(State())
    {
      if o.Fulfilled? && settings.Some? {
        settings := Some(settings.value.(notifications := o.payload));
      }
    }

    method UpdateSecuritySettings(o: Outcome<SecuritySettings>)
      modifies this
      ensures o.Fulfilled? ==> State() == old(State()).(settings := UpdateSection(old(settings), Security(o.payload)))
      ensures !o.Fulfilled? ==> State() == old(State())
    {
      if o.Fulfilled? && settings.Some? {
        settings := Some(settings.value.(security := o.payload));
      }
    }

    method UpdateIntegrationSettings(o: Outcome<IntegrationSettings>)
      modifies this
      ensures o.Fulfilled? ==> State() == old(State()).(settings := UpdateSection(old(settings), Integrations(o.payload)))
      ensures !o.Fulfilled? ==> State() == old(State())
    {
      if o.Fulfilled? && settings.Some? {
        settings := Some(settings.value.(integrations := o.payload));
      }
    }
  }
}
