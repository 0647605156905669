/**
  The device controller: the single `DeviceState` record, its mirror in the
  `Preferences` key/value store, and the operations that change them — boot, one
  pass of the run loop, the WiFi connect and access-point fallbacks, the probability
  poll, and the two state-changing request handlers.

  Everything outside the record is an oracle parameter: the link status the radio
  reports, the HTTP status and parsed body of a GET, the clock, and the request
  fields. The servo is a ghost log of the angles written to it.
 */
module Device {
  import opened Wrappers
  import opened Needle
  import opened Probability
  import opened Connectivity

  const DEFAULT_SLUG: string := "will-trump-win-the-2024-election"
  const HOSTNAME: string := "electionneedle"

  const MISSING_SLUG: string := "Missing slug"
  const SLUG_UPDATED: string := "Market updated successfully"
  const INVALID_SLUG: string := "Invalid market slug. Please check the URL and try again."
  const MISSING_SSID: string := "Missing SSID"
  const CONNECT_FAILED: string := "Could not connect to WiFi. Please check credentials."

  /** What the radio was last told to be (`WiFi.mode`). */
  datatype RadioMode = Off | Station | AccessPoint

  /** The JSON reply of a request handler. */
  datatype Reply =
    | Rejected(message: string)    // 400, {"success": false, "message": ...}
    | Accepted(message: string)    // 200, {"success": true, "message": ...}
    | Joined(hostname: string)     // 200, {"success": true, "ip": ..., "hostname": ...}
  {
    function HttpStatus(): int {
      if Rejected? then 400 else 200
    }
  }

  /** `Preferences.getString(key, default)`: the stored value, or `default` when the key is absent. */
  function GetString(store: map<string, string>, key: string, default: string): (v: string)
    ensures key in store ==> v == store[key]
    ensures key !in store ==> v == default
  {
    if key in store then store[key] else default
  }

  /**
    `putString` followed by `getString`: the key reads back the value written, whatever
    the default, and every other key reads as before.
   */
  lemma PutThenGet(store: map<string, string>, key: string, value: string, other: string, default: string)
    ensures GetString(store[key := value], key, default) == value
    ensures other != key ==> GetString(store[key := value], other, default) == GetString(store, other, default)
  {
  }

  class Controller {
    var clientSsid: string
    var clientPassword: string
    var marketSlug: string
    var currentProbability: real
    var isAPMode: bool
    var lastUpdate: int
    /** The "wifi-config" preferences namespace: keys "ssid", "password" and "slug". */
    var preferences: map<string, string>
    var radio: RadioMode
    /** Set by `ESP.restart()`: the process has ended and boots again from `preferences`. */
    var restarted: bool
    /** Every angle written to the servo, oldest first. */
    ghost var servoWrites: seq<int>
    /** How many times `updateProbability` has run. */
    ghost var polls: nat

    /**
      The invariant between the fields: the clock reading fits an `unsigned long`; the
      mode flag agrees with the radio; the market slug is the persisted one; client mode
      runs on the persisted, non-empty credentials; a restart happens only from client mode.
     */
    ghost predicate Valid()
      reads this
    {
      && 0 <= lastUpdate < CLOCK_MODULUS
      && (isAPMode <==> radio == AccessPoint)
      && marketSlug == GetString(preferences, "slug", DEFAULT_SLUG)
      && (!isAPMode ==>
            && GetString(preferences, "ssid", "") == clientSsid
            && GetString(preferences, "password", "") == clientPassword)
      && (!isAPMode && !restarted ==> clientSsid != "")
      && (restarted ==> !isAPMode)
    }

    /**
      `setup`: load the configuration from `stored`, then join the stored network if
      there is one and the link comes up, else start the access point. The servo is
      set to its default angle if it attached.
     */
    constructor Boot(stored: map<string, string>, servoAttached: bool, attempt: nat -> bool)
      ensures Valid() && !restarted
      ensures preferences == stored
      ensures clientSsid == GetString(stored, "ssid", "")
      ensures clientPassword == GetString(stored, "password", "")
      ensures marketSlug == GetString(stored, "slug", DEFAULT_SLUG)
      ensures currentProbability == INITIAL_PROBABILITY && lastUpdate == 0
      ensures !isAPMode <==> clientSsid != "" && LinkComesUp(attempt)
      ensures servoWrites == (if servoAttached then [DEFAULT_ANGLE] else []) && polls == 0
    {
      clientSsid := GetString(stored, "ssid", "");
      clientPassword := GetString(stored, "password", "");
      marketSlug := GetString(stored, "slug", DEFAULT_SLUG);
      currentProbability := INITIAL_PROBABILITY;
      isAPMode := true;
      lastUpdate := 0;
      preferences := stored;
      radio := Off;
      restarted := false;
      servoWrites := if servoAttached then [DEFAULT_ANGLE] else [];
      polls := 0;
      new;
      var connected := false;
      if clientSsid != "" {
        connected := ConnectWiFi(attempt);
      }
      if !connected {
        SetupAP();
      }
    }

    /**
      `connectWiFi`: drop any association, switch to station mode, and wait for the link.
      Success clears the AP-mode flag; failure leaves it as it was, with the radio in
      station mode, so `Valid()` holds again only once the caller re-arms the access point.
     */
    method ConnectWiFi(attempt: nat -> bool) returns (ok: bool)
      modifies this`isAPMode, this`radio
      ensures radio == Station
      ensures ok <==> LinkComesUp(attempt)
      ensures isAPMode == (if ok then false else old(isAPMode))
    {
      radio := Station;
      var connected, waited := WaitForLink(attempt);
      if connected {
        isAPMode := false;
        return true;
      }
      return false;
    }

    /** `setupAP`: bring up the configuration access point and captive DNS. */
    method SetupAP()
      modifies this`isAPMode, this`radio
      ensures isAPMode && radio == AccessPoint
    {
      radio := AccessPoint;
      isAPMode := true;
    }

    /**
      `updateProbability`: replace the probability by the polled quote when the
      rule of `Probability.Next` says so, and then write the new angle to the servo.
     */
    method UpdateProbability(f: Fetch)
      modifies this`currentProbability, this`servoWrites, this`polls
      ensures currentProbability == Next(old(currentProbability), f)
      ensures servoWrites == old(servoWrites) +
        (if Replaces(old(currentProbability), f) then [AngleOf(currentProbability)] else [])
      ensures polls == old(polls) + 1
    {
      polls := polls + 1;
      if !f.linkUp {
        return;
      }
      if f.httpCode == HTTP_CODE_OK {
        match f.parsed
        case Some(newProbability) =>
          if Abs(newProbability - currentProbability) > THRESHOLD {
            currentProbability := newProbability;
            servoWrites := servoWrites + [AngleOf(currentProbability)];
          }
        case None =>
      }
    }

    /**
      One pass of `loop` (request handling aside): in client mode, poll once the update
      interval has elapsed on the wrapping clock and stamp the poll with the clock read
      after it; then, if the link is down, reconnect once and fall back to the access
      point if that fails.
     */
    method Tick(now: int, poll: Fetch, afterPoll: int, linkUp: bool, attempt: nat -> bool)
      requires Valid() && !restarted
      requires 0 <= now < CLOCK_MODULUS && 0 <= afterPoll < CLOCK_MODULUS
      modifies this`currentProbability, this`servoWrites, this`polls, this`lastUpdate,
               this`isAPMode, this`radio
      ensures Valid() && !restarted
      ensures var polled := !old(isAPMode) && PollDue(now, old(lastUpdate));
        && currentProbability == (if polled then Next(old(currentProbability), poll) else old(currentProbability))
        && lastUpdate == (if polled then afterPoll else old(lastUpdate))
        && polls == old(polls) + (if polled then 1 else 0)
        && servoWrites == old(servoWrites) +
             (if polled && Replaces(old(currentProbability), poll) then [AngleOf(currentProbability)] else [])
      ensures isAPMode == (old(isAPMode) || (!linkUp && !LinkComesUp(attempt)))
      ensures radio == (if old(isAPMode) || linkUp then old(radio)
                        else if LinkComesUp(attempt) then Station else AccessPoint)
    {
      if !isAPMode && Elapsed(now, lastUpdate) >= UPDATE_INTERVAL {
        UpdateProbability(poll);
        lastUpdate := afterPoll;
      }
      if !isAPMode && !linkUp {
        var ok := ConnectWiFi(attempt);
        if !ok {
          SetupAP();
        }
      }
    }

    /**
      `handleUpdateSlug`: check the new slug with a test GET; on 200 adopt and persist
      it and poll once straight away, otherwise reject and change nothing.
     */
    method HandleUpdateSlug(slugArg: Option<string>, testStatus: int, poll: Fetch) returns (reply: Reply)
      requires Valid() && !restarted
      modifies this`marketSlug, this`preferences, this`currentProbability, this`servoWrites, this`polls
      ensures Valid() && !restarted
      ensures slugArg.None? ==> reply == Rejected(MISSING_SLUG) && unchanged(this)
      ensures slugArg.Some? && testStatus != HTTP_CODE_OK ==> reply == Rejected(INVALID_SLUG) && unchanged(this)
      ensures slugArg.Some? && testStatus == HTTP_CODE_OK ==>
        && reply == Accepted(SLUG_UPDATED)
        && marketSlug == slugArg.value
        && preferences == old(preferences)["slug" := slugArg.value]
        && currentProbability == Next(old(currentProbability), poll)
        && polls == old(polls) + 1
        && servoWrites == old(servoWrites) +
             (if Replaces(old(currentProbability), poll) then [AngleOf(currentProbability)] else [])
    {
      if slugArg.None? {
        return Rejected(MISSING_SLUG);
      }
      var newSlug := slugArg.value;
      if testStatus == HTTP_CODE_OK {
        marketSlug := newSlug;
        preferences := preferences["slug" := newSlug];
        reply := Accepted(SLUG_UPDATED);
        UpdateProbability(poll);
      } else {
        reply := Rejected(INVALID_SLUG);
      }
    }

    /**
      `handleConfigure`: take the submitted credentials, then try to join. On success
      persist them and restart; on failure persist nothing and re-arm the access point.
      The route is registered only by `setupAP`, and AP mode is left only through a
      restart, so the handler runs in AP mode.
     */
    method HandleConfigure(ssidArg: Option<string>, passwordArg: Option<string>, attempt: nat -> bool)
      returns (reply: Reply)
      requires Valid() && !restarted && isAPMode
      modifies this`clientSsid, this`clientPassword, this`isAPMode, this`radio, this`preferences, this`restarted
      ensures Valid()
      ensures ssidArg.None? ==> reply == Rejected(MISSING_SSID) && unchanged(this)
      ensures ssidArg.Some? ==> clientSsid == ssidArg.value && clientPassword == passwordArg.GetOr("")
      ensures ssidArg.Some? && LinkComesUp(attempt) ==>
        && reply == Joined(HOSTNAME + ".local")
        && preferences == old(preferences)["ssid" := clientSsid]["password" := clientPassword]
        && restarted && !isAPMode && radio == Station
      ensures ssidArg.Some? && !LinkComesUp(attempt) ==>
        && reply == Rejected(CONNECT_FAILED)
        && preferences == old(preferences)
        && !restarted && isAPMode && radio == AccessPoint
    {
      if ssidArg.None? {
        return Rejected(MISSING_SSID);
      }
      clientSsid := ssidArg.value;
      clientPassword := passwordArg.GetOr("");
      var ok := ConnectWiFi(attempt);
      if ok {
        preferences := preferences["ssid" := clientSsid];
        preferences := preferences["password" := clientPassword];
        reply := Joined(HOSTNAME + ".local");
        restarted := true;
      } else {
        reply := Rejected(CONNECT_FAILED);
        radio := AccessPoint;
      }
    }

    /**
      `ESP.restart()` followed by `setup`: the new process reads back exactly the
      credentials and slug that were in use, so it repeats the same connect attempt.
     */
    method Reboot(servoAttached: bool, attempt: nat -> bool) returns (next: Controller)
      requires Valid() && restarted
      ensures fresh(next) && next.Valid() && !next.restarted
      ensures next.preferences == preferences
      ensures next.clientSsid == clientSsid && next.clientPassword == clientPassword
      ensures next.marketSlug == marketSlug
      ensures !next.isAPMode <==> clientSsid != "" && LinkComesUp(attempt)
    {
      next := new Controller.Boot(preferences, servoAttached, attempt);
    }
  }
}
