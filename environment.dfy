/** Environment health (`environment.rs`): which desktop session is running,
    and what that means for injecting text into other applications. The
    operating system name and the `XDG_SESSION_TYPE` variable are inputs. */
module Environment {
  import opened Wrappers
  import opened Strings

  datatype SessionType = X11 | Wayland | UnknownSession

  datatype PermissionState = Ready | NeedsSetup | UnknownPermission

  datatype EnvironmentHealth = EnvironmentHealth(
    os: string,
    sessionType: SessionType,
    inputInjectionPermission: PermissionState,
    notes: seq<string>)

  /** `session_type_from_env`. */
  function SessionTypeFromEnv(value: Option<string>): (r: SessionType)
    ensures r == X11 <==> value.Some? && EqIgnoreAsciiCase(value.value, "x11")
    ensures r == Wayland <==> value.Some? && EqIgnoreAsciiCase(value.value, "wayland")
  {
    match value
    case Some(raw) =>
      if EqIgnoreAsciiCase(raw, "x11") then X11
      else if EqIgnoreAsciiCase(raw, "wayland") then Wayland
      else UnknownSession
    case None => UnknownSession
  }

  /** The source's examples: "x11" and "X11" are X11, "wayland" is Wayland,
      and no value is unknown. */
  lemma SessionExamples()
    ensures SessionTypeFromEnv(Some("x11")) == X11
    ensures SessionTypeFromEnv(Some("X11")) == X11
    ensures SessionTypeFromEnv(Some("wayland")) == Wayland
    ensures SessionTypeFromEnv(None) == UnknownSession
  {
    EqIgnoreAsciiCaseExamples();
    assert AsciiLower("x11") == "x11";
    assert AsciiLower("wayland") == "wayland";
  }

  const MACOS_NOTE: string := "Grant Accessibility and Input Monitoring permissions for global input insertion."
  const WINDOWS_NOTE: string := "Input injection can fail for elevated/protected apps; run with matching integrity level."
  const X11_NOTE: string := "X11 session detected; global input path is supported in v1."
  const NON_X11_NOTE: string := "Non-X11 session detected; switch to X11 for supported global insertion behavior."
  const UNSUPPORTED_NOTE: string := "Unsupported OS for guaranteed v1 behavior."
  const WAYLAND_NOTE: string := "Wayland may block global text injection; use X11 for full dictation support in v1."

  datatype PermissionAndNotes = PermissionAndNotes(permission: PermissionState, notes: seq<string>)

  /** `permission_and_notes_for_os`. */
  function PermissionAndNotesForOs(os: string, session: SessionType): PermissionAndNotes {
    if os == "macos" then PermissionAndNotes(NeedsSetup, [MACOS_NOTE])
    else if os == "windows" then PermissionAndNotes(UnknownPermission, [WINDOWS_NOTE])
    else if os == "linux" then
      if session == X11 then PermissionAndNotes(Ready, [X11_NOTE])
      else PermissionAndNotes(NeedsSetup, [NON_X11_NOTE])
    else PermissionAndNotes(UnknownPermission, [UNSUPPORTED_NOTE])
  }

  /** Injection is ready only on Linux under X11; macOS and Linux outside X11
      need setup; Windows and every other system are unknown; and there is
      always exactly one note. */
  lemma PermissionRules(os: string, session: SessionType)
    ensures var p := PermissionAndNotesForOs(os, session);
      && (p.permission == Ready <==> os == "linux" && session == X11)
      && (p.permission == NeedsSetup <==> os == "macos" || (os == "linux" && session != X11))
      && (p.permission == UnknownPermission <==> os != "macos" && os != "linux")
      && |p.notes| == 1 && p.notes[0] != []
  {
  }

  /** `detect_environment_health` with its two inputs. */
  function DetectEnvironmentHealth(os: string, sessionEnv: Option<string>): EnvironmentHealth {
    var session := SessionTypeFromEnv(sessionEnv);
    var p := PermissionAndNotesForOs(os, session);
    EnvironmentHealth(os, session, p.permission, p.notes + (if session == Wayland then [WAYLAND_NOTE] else []))
  }

  /** The report always carries notes; a Wayland session adds exactly the
      Wayland note after the system's own. */
  lemma HealthNotes(os: string, sessionEnv: Option<string>)
    ensures var h := DetectEnvironmentHealth(os, sessionEnv);
      && h.notes != []
      && h.notes[0] == PermissionAndNotesForOs(os, h.sessionType).notes[0]
      && (h.sessionType == Wayland <==> |h.notes| == 2)
      && (h.sessionType == Wayland ==> h.notes[1] == WAYLAND_NOTE)
      && h.inputInjectionPermission == PermissionAndNotesForOs(os, h.sessionType).permission
  {
    PermissionRules(os, SessionTypeFromEnv(sessionEnv));
  }

  /** The source's examples: Linux under X11 is ready, under Wayland it needs
      setup; both come with notes. */
  lemma LinuxExamples()
    ensures PermissionAndNotesForOs("linux", X11).permission == Ready
    ensures PermissionAndNotesForOs("linux", Wayland).permission == NeedsSetup
    ensures PermissionAndNotesForOs("linux", X11).notes != [] && PermissionAndNotesForOs("linux", Wayland).notes != []
  {
  }
}
