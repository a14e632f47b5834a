/** Identifiers, modes and request validation (crates/svd-proto/src/lib.rs). */
module Proto {
  import opened Outcomes

  type i32 = i: int | -0x8000_0000 <= i < 0x8000_0000

  type u32 = u: int | 0 <= u < 0x1_0000_0000

  datatype Mode = Mode(width: nat, height: nat, refresh: nat)

  datatype LifecyclePhase = Disconnected | Connecting | Connected | Disconnecting | RecoveryRequired

  datatype Request =
    | Connect(mode: Mode, device: Option<string>, dryRun: bool, exclusive: bool)
    | Disconnect
    | Status
    | Restore

  datatype RequestError = OutOfRange | ModeNotAllowed | InvalidInput | InvalidDevice

  predicate IsDigit(c: char) { '0' <= c <= '9' }

  predicate IsAlphanumeric(c: char) { IsDigit(c) || 'a' <= c <= 'z' || 'A' <= c <= 'Z' }

  /** `CardId::try_from`: "card" followed by one or more decimal digits. */
  predicate IsCardId(s: string) {
    "card" <= s && |s| > 4 && forall i | 4 <= i < |s| :: IsDigit(s[i])
  }

  /** `ConnectorId::try_from`: 1 to 64 ASCII letters, digits, hyphens and underscores. */
  predicate IsConnectorId(s: string) {
    0 < |s| <= 64 && forall i | 0 <= i < |s| :: IsAlphanumeric(s[i]) || s[i] == '-' || s[i] == '_'
  }

  const VIC_TABLE: seq<Mode> := [
    Mode(1280, 720, 30), Mode(1280, 720, 60),
    Mode(1920, 1080, 30), Mode(1920, 1080, 60), Mode(1920, 1080, 120),
    Mode(2560, 1440, 60), Mode(2560, 1440, 120),
    Mode(3840, 2160, 30), Mode(3840, 2160, 60)
  ]

  predicate IsModeAllowed(mode: Mode, extra: seq<Mode>) { mode in VIC_TABLE || mode in extra }

  /** The numeric bounds every request that reaches the strategy satisfies. */
  predicate InRange(mode: Mode) {
    1 <= mode.width <= 16384 && 1 <= mode.height <= 16384 && 24 <= mode.refresh <= 480
  }

  predicate IsControl(c: char) { c < ' ' || '\U{7f}' <= c <= '\U{9f}' }

  predicate HasDisallowedChars(s: string) {
    || '/' in s
    || (exists i | 0 <= i < |s| - 1 :: s[i] == '.' && s[i + 1] == '.')
    || exists i | 0 <= i < |s| :: IsControl(s[i])
  }

  function ValidateDevice(device: Option<string>): (r: Result<(), RequestError>) {
    if device.None? then Ok(())
    else if HasDisallowedChars(device.value) then Err(InvalidInput)
    else if !IsCardId(device.value) then Err(InvalidDevice)
    else Ok(())
  }

  /** The check the command line client makes before it sends anything. */
  function ValidateRequestFormat(req: Request): Result<(), RequestError> {
    if !req.Connect? then Ok(())
    else if !InRange(req.mode) then Err(OutOfRange)
    else ValidateDevice(req.device)
  }

  /** The check the daemon makes; the order of the tests decides which error is reported. */
  function ValidateRequest(req: Request, extra: seq<Mode>): Result<(), RequestError> {
    if !req.Connect? then Ok(())
    else if !InRange(req.mode) then Err(OutOfRange)
    else if !IsModeAllowed(req.mode, extra) then Err(ModeNotAllowed)
    else ValidateDevice(req.device)
  }

  /**
   * The daemon accepts a connect exactly when the client would have sent it and its mode is on the
   * allowlist, and then its mode is in range and its device is a card name: the separate search for
   * disallowed characters never turns away a device that the card pattern would have let through.
   */
  lemma ServerAcceptsExactly(req: Request, extra: seq<Mode>)
    requires req.Connect?
    ensures ValidateRequest(req, extra).Ok? <==>
            ValidateRequestFormat(req).Ok? && IsModeAllowed(req.mode, extra)
    ensures ValidateRequest(req, extra).Ok? <==>
            && 1 <= req.mode.width <= 16384 && 1 <= req.mode.height <= 16384 && 24 <= req.mode.refresh <= 480
            && (req.mode in VIC_TABLE || req.mode in extra)
            && (req.device.Some? ==> IsCardId(req.device.value))
  {
    if req.device.Some? && IsCardId(req.device.value) {
      var d := req.device.value;
      forall i | 0 <= i < |d|
        ensures d[i] != '/' && d[i] != '.' && !IsControl(d[i])
      {
        if i < 4 { assert d[i] == "card"[i]; }
      }
    }
  }

  /** Which error it is otherwise: each test counts only if those before it have been passed. */
  lemma ServerRefuses(req: Request, extra: seq<Mode>)
    requires req.Connect?
    ensures var m, d, r := req.mode, req.device, ValidateRequest(req, extra);
            var inRange := 1 <= m.width <= 16384 && 1 <= m.height <= 16384 && 24 <= m.refresh <= 480;
            var allowed := inRange && (m in VIC_TABLE || m in extra);
            var unsafe := d.Some? && exists i ::
              0 <= i < |d.value|
              && (d.value[i] == '/' || d.value[i] < ' ' || '\U{7f}' <= d.value[i] <= '\U{9f}'
                  || (d.value[i] == '.' && i + 1 < |d.value| && d.value[i + 1] == '.'));
            && (r == Err(OutOfRange) <==> !inRange)
            && (r == Err(ModeNotAllowed) <==> inRange && !allowed)
            && (r == Err(InvalidInput) <==> allowed && unsafe)
            && (r == Err(InvalidDevice) <==> allowed && !unsafe && d.Some? && !IsCardId(d.value))
  {
    if req.device.Some? {
      var d := req.device.value;
      if '/' in d {
        var i :| 0 <= i < |d| && d[i] == '/';
      }
    }
  }
}
