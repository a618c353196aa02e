/** The barcode scanning screen: the camera reports every code it reads,
    but a code is acted on (by opening the detail screen with it) only
    while the `scanned` flag is clear; acting sets the flag, and a timer
    clears it three seconds later. The timer is an explicit `Reset` event. */
module BarcodeScanner {
  import opened Js

  datatype ScanEvent = Scan(code: string) | Reset

  /** `navigation.navigate('ProductDetails', { scannedCode })`. */
  datatype Navigation = ToProductDetails(scannedCode: string)

  /** One event applied to the flag: the new flag and the navigation, if any. */
  function Step(scanned: bool, e: ScanEvent): (bool, Option<Navigation>)
  {
    match e
    case Scan(code) => if !scanned then (true, Some(ToProductDetails(code))) else (true, None)
    case Reset => (false, None)
  }

  /** The flag after a sequence of events. */
  function After(scanned: bool, events: seq<ScanEvent>): bool
  {
    if events == [] then scanned
    else Step(After(scanned, events[..|events| - 1]), events[|events| - 1]).0
  }

  /** The event at position `i` is a scan that is acted on. */
  predicate Accepted(scanned: bool, events: seq<ScanEvent>, i: nat)
    requires i < |events|
  {
    events[i].Scan? && !After(scanned, events[..i])
  }

  /** A scan is acted on exactly when the flag is clear, and then opens the
      detail screen with the code verbatim; a scan always leaves the flag
      set, and a reset always clears it. */
  lemma StepSpec(scanned: bool, e: ScanEvent)
    ensures e.Scan? ==> Step(scanned, e).0
    ensures e.Scan? ==> (Step(scanned, e).1.Some? <==> !scanned)
    ensures e.Scan? && !scanned ==> Step(scanned, e).1 == Some(ToProductDetails(e.code))
    ensures e.Reset? ==> !Step(scanned, e).0 && Step(scanned, e).1.None?
  {
  }

  /** Once set, the flag stays set until a reset. */
  lemma {:induction false} StaysScanned(s0: bool, events: seq<ScanEvent>, i: nat, j: nat)
    requires i < j <= |events|
    requires After(s0, events[..i + 1])
    requires forall k :: i < k < j ==> !events[k].Reset?
    ensures After(s0, events[..j])
  {
    if j > i + 1 {
      StaysScanned(s0, events, i, j - 1);
      assert events[..j][..j - 1] == events[..j - 1];
    }
  }

  /** Between any two scans that are acted on there is a reset, provided
      each scan is handled after the previous one's flag update has been
      rendered; reads delivered within one render all see the same
      captured flag and are all acted on. */
  lemma ResetBetweenAcceptedScans(s0: bool, events: seq<ScanEvent>, i: nat, j: nat)
    requires i < j < |events|
    requires Accepted(s0, events, i) && Accepted(s0, events, j)
    ensures exists k :: i < k < j && events[k].Reset?
  {
    if forall k :: i < k < j ==> !events[k].Reset? {
      assert events[..i + 1][..i] == events[..i];
      StaysScanned(s0, events, i, j);
      assert false;
    }
  }

  /** After a reset, the next scan is acted on, whatever came before. */
  lemma ScanAfterResetAccepted(s0: bool, events: seq<ScanEvent>, code: string)
    ensures Accepted(s0, events + [Reset, Scan(code)], |events| + 1)
  {
    var evs := events + [Reset, Scan(code)];
    assert evs[..|events| + 1] == events + [Reset];
    assert (events + [Reset])[..|events|] == events;
  }

  class BarcodeScannerScreen {
    var scanned: bool

    constructor ()
      ensures !scanned
    {
      scanned := false;
    }

    /** `onBarcodeScan`, seeing the flag the previous event wrote (each scan
        is assumed to be handled after the previous update has been
        rendered). */
    method OnBarcodeScan(code: string) returns (nav: Option<Navigation>)
      modifies this
      ensures (scanned, nav) == Step(old(scanned), Scan(code))
      ensures !old(scanned) ==> nav == Some(ToProductDetails(code))
      ensures old(scanned) ==> nav == None
      ensures scanned
    {
      if !scanned {
        scanned := true;
        nav := Some(ToProductDetails(code));
      } else {
        nav := None;
      }
    }

    /** The timer callback `() => setScanned(false)`. */
    method OnResetTimer()
      modifies this
      ensures (scanned, None) == Step(old(scanned), Reset)
      ensures !scanned
    {
      scanned := false;
    }
  }
}
