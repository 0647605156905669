/**
  Client code that drives the controller through scenarios of the device's use (first
  boot, joining, changing the market, a failed configuration, the update threshold),
  using only the contracts of `Device.Controller`.
 */
module Scenarios {
  import opened Wrappers
  import opened Needle
  import opened Probability
  import opened Connectivity
  import opened Device

  /** Nothing stored: boot ends in AP mode with the default slug and probability. */
  method FirstBoot(attempt: nat -> bool)
  {
    var d := new Controller.Boot(map[], true, attempt);
    assert d.isAPMode && d.radio == AccessPoint;
    assert d.marketSlug == DEFAULT_SLUG && d.currentProbability == 0.5;
  }

  /** Stored credentials and a link that comes up at once: client mode, needle at 90 degrees. */
  method StoredCredentialsJoin()
  {
    var stored := map["ssid" := "home", "password" := "secret"];
    var d := new Controller.Boot(stored, true, t => true);
    assert LinkComesUp(t => true) by {
      assert IsProbeTime(0);
    }
    assert !d.isAPMode;
    assert Percent(d.currentProbability) == 50;
    assert AngleOf(d.currentProbability) == 90 by {
      AngleLandmarks();
    }
  }

  /** A slug the API rejects leaves the slug and the store as they were. */
  method RejectedSlug(d: Controller, poll: Fetch)
    requires d.Valid() && !d.restarted
    modifies d
  {
    var slug, store := d.marketSlug, d.preferences;
    var reply := d.HandleUpdateSlug(Some("no-such-market"), 404, poll);
    assert reply.HttpStatus() == 400;
    assert d.marketSlug == slug && d.preferences == store;
  }

  /** Submitting the same slug twice leaves the same slug and store as submitting it once. */
  method ResubmittedSlug(d: Controller, slug: string, poll1: Fetch, poll2: Fetch)
    requires d.Valid() && !d.restarted
    modifies d
  {
    var _ := d.HandleUpdateSlug(Some(slug), 200, poll1);
    var slug1, store1 := d.marketSlug, d.preferences;
    var _ := d.HandleUpdateSlug(Some(slug), 200, poll2);
    assert d.marketSlug == slug1 && d.preferences == store1;
  }

  /** Credentials that never associate: rejected, nothing persisted, still in AP mode. */
  method FailedConfigure(d: Controller)
    requires d.Valid() && !d.restarted && d.isAPMode
    modifies d
  {
    var store := d.preferences;
    var reply := d.HandleConfigure(Some("guest"), None, t => false);
    assert reply == Rejected(CONNECT_FAILED);
    assert d.preferences == store && d.isAPMode && d.radio == AccessPoint;
    assert d.clientSsid == "guest" && d.clientPassword == "";
  }

  /** Credentials that associate are persisted, and the reboot connects with them. */
  method ConfigureThenReboot(d: Controller, ssid: string, password: string, attempt: nat -> bool)
    requires d.Valid() && !d.restarted && d.isAPMode
    requires LinkComesUp(attempt)
    modifies d
  {
    var reply := d.HandleConfigure(Some(ssid), Some(password), attempt);
    assert d.restarted;
    var next := d.Reboot(false, attempt);
    assert next.clientSsid == ssid && next.clientPassword == password;
    assert ssid != "" ==> !next.isAPMode;
  }

  /** A move of 0.05 updates the needle; a move of 0.005 does not. */
  method PollThresholds(d: Controller)
    requires d.currentProbability == 0.5
    modifies d
  {
    var writes := d.servoWrites;
    d.UpdateProbability(Fetch(true, 200, Some(0.505)));
    assert d.currentProbability == 0.5 && d.servoWrites == writes;
    d.UpdateProbability(Fetch(true, 200, Some(0.55)));
    assert d.currentProbability == 0.55 && d.servoWrites == writes + [AngleOf(0.55)];
  }
}
