/** The application shell of whisperspeechtyping.py, reduced to its state
    and lookups: which status icon a status shows, which of the two windows
    is active, and whether speech typing is enabled. */
module App {
  import opened Common
  import Config

  /** The icon shown for each known status (whisperspeechtyping.py:79-88). */
  const StatusIcons: map<string, string> :=
    map["recording" := "wsp_record",
        "ready" := "wsp_ready",
        "typing" := "wsp_type",
        "transcribing" := "wsp_wait",
        "starting" := "wsp_wait",
        "stopping" := "wsp_wait",
        "loading" := "wsp_wait",
        "disabled" := "wsp_disabled"]

  /** `status_to_icon.get(status, "wsp_disabled")`. */
  function StatusToIcon(status: string): (icon: string)
    ensures icon in StatusIcons.Values
    ensures status in StatusIcons ==> icon == StatusIcons[status]
  {
    if status in StatusIcons then StatusIcons[status]
    else
      assert StatusIcons["disabled"] == "wsp_disabled";
      "wsp_disabled"
  }

  /** Each icon and the statuses that show it, in both directions: every
      status outside the table shows the disabled icon. */
  lemma IconOfStatus(status: string)
    ensures StatusToIcon(status) == "wsp_record" <==> status == "recording"
    ensures StatusToIcon(status) == "wsp_ready" <==> status == "ready"
    ensures StatusToIcon(status) == "wsp_type" <==> status == "typing"
    ensures StatusToIcon(status) == "wsp_wait" <==>
      status == "transcribing" || status == "starting" || status == "stopping" || status == "loading"
    ensures StatusToIcon(status) == "wsp_disabled" <==>
      status != "recording" && status != "ready" && status != "typing" && status != "transcribing" &&
      status != "starting" && status != "stopping" && status != "loading"
  {
  }

  datatype Gui = FloatingWindow | SystemTray

  /** The window opened at start-up: the floating window exactly when the
      `active_gui` setting is "floating". */
  function InitialGui(setting: Option<Config.Value>): (g: Gui)
    ensures g == FloatingWindow <==> setting == Some(Config.Str("floating"))
  {
    if setting == Some(Config.Str("floating")) then FloatingWindow else SystemTray
  }

  /** The `active_gui` setting that records a window. */
  function GuiSetting(g: Gui): (v: string)
    ensures v == "floating" <==> g == FloatingWindow
    ensures v == "systemtray" <==> g == SystemTray
  {
    match g
    case FloatingWindow => "floating"
    case SystemTray => "systemtray"
  }

  function Other(g: Gui): (h: Gui)
    ensures h != g
  {
    match g
    case FloatingWindow => SystemTray
    case SystemTray => FloatingWindow
  }

  /** The recorded setting reopens the same window at the next start-up. */
  lemma GuiSettingRoundTrip(g: Gui)
    ensures InitialGui(Some(Config.Str(GuiSetting(g)))) == g
  {
  }

  /** `WhisperTypingApp` (whisperspeechtyping.py). Creating and tearing down
      the recorder, transcriber and hotkey handler in `start_typing` and
      `stop_typing` are not part of this model; only the `enabled` flag
      they set is. */
  class WhisperTypingApp {
    const config: Config.ConfigManager
    var activeGui: Gui
    var enabled: bool
    var quitting: bool

    /** Open the window the settings ask for, then start typing. */
    constructor(config: Config.ConfigManager)
      ensures this.config == config
      ensures activeGui == InitialGui(config.GetSetting("active_gui"))
      ensures enabled && !quitting
    {
      this.config := config;
      activeGui := InitialGui(config.GetSetting("active_gui"));
      quitting := false;
      enabled := false;
      new;
      StartTyping();
    }

    /** `switch_gui`: make the other window active and record it. */
    method SwitchGui()
      modifies this, config
      ensures activeGui == Other(old(activeGui))
      ensures config.settings == old(config.settings)["active_gui" := Config.Str(GuiSetting(activeGui))]
      ensures config.file == Some(config.settings)
      ensures InitialGui(config.GetSetting("active_gui")) == activeGui
      ensures enabled == old(enabled) && quitting == old(quitting)
    {
      if activeGui == FloatingWindow {
        activeGui := SystemTray;
        config.UpdateSetting("active_gui", Config.Str("systemtray"));
      } else {
        activeGui := FloatingWindow;
        config.UpdateSetting("active_gui", Config.Str("floating"));
      }
    }

    method StartTyping()
      modifies this
      ensures enabled && activeGui == old(activeGui) && quitting == old(quitting)
    {
      enabled := true;
    }

    method StopTyping()
      modifies this
      ensures !enabled && activeGui == old(activeGui) && quitting == old(quitting)
    {
      enabled := false;
    }

    /** `start_stop_typing`: flip `enabled`. */
    method StartStopTyping()
      modifies this
      ensures enabled == !old(enabled) && activeGui == old(activeGui) && quitting == old(quitting)
    {
      if enabled {
        StopTyping();
      } else {
        StartTyping();
      }
    }

    /** `restart`: stop, then start; typing is enabled afterwards whatever it
        was before. */
    method Restart()
      modifies this
      ensures enabled && activeGui == old(activeGui) && quitting == old(quitting)
    {
      StopTyping();
      StartTyping();
    }

    /** `close_application`: stop typing and end the display loop. */
    method CloseApplication()
      modifies this
      ensures !enabled && quitting && activeGui == old(activeGui)
    {
      StopTyping();
      quitting := true;
    }
  }

  /** Switching the window twice brings the original window back, and the
      setting then records that window (whatever it held before, absent
      included). */
  method SwitchTwice(app: WhisperTypingApp)
    modifies app, app.config
    ensures app.activeGui == old(app.activeGui)
    ensures app.config.GetSetting("active_gui") == Some(Config.Str(GuiSetting(old(app.activeGui))))
  {
    app.SwitchGui();
    app.SwitchGui();
  }
}
