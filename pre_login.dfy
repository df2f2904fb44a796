/**
 * The two-step gate in front of the login page (src/app/page.tsx): a secret
 * code, then a protocol code, each compared after case folding; passing both
 * sets a session flag that lets later visits skip the gate.
 */
module PreLogin {
  import opened Types
  import Ascii
  import Browser

  const PreLoginKey := "preLoginAuthenticated"
  const SecretCode := "unicorn"
  const ProtocolCode := "ZYNQ50"

  /** Step 1 accepts exactly the spellings of "unicorn" in any mix of cases. */
  predicate Step1Accepts(code: string)
    ensures Step1Accepts(code) <==>
      |code| == |SecretCode| &&
      forall i :: 0 <= i < |code| ==> code[i] == SecretCode[i] || code[i] == Ascii.UpperChar(SecretCode[i])
  {
    assert forall i :: 0 <= i < |SecretCode| ==> !Ascii.IsUpper(SecretCode[i]);
    Ascii.LowerEquals(code, SecretCode);
    Ascii.Lower(code) == SecretCode
  }

  /** Step 2 accepts exactly the spellings of "ZYNQ50" in any mix of cases; the digits
      must be typed as they are. */
  predicate Step2Accepts(code: string)
    ensures Step2Accepts(code) <==>
      |code| == |ProtocolCode| &&
      forall i :: 0 <= i < |code| ==> code[i] == ProtocolCode[i] || code[i] == Ascii.LowerChar(ProtocolCode[i])
  {
    assert forall i :: 0 <= i < |ProtocolCode| ==> !Ascii.IsLower(ProtocolCode[i]);
    Ascii.UpperEquals(code, ProtocolCode);
    Ascii.Upper(code) == ProtocolCode
  }

  lemma SampleCodes()
    ensures Step1Accepts("UniCorn") && !Step1Accepts("unicorn ") && !Step1Accepts("unicom")
    ensures Step2Accepts("zynq50") && !Step2Accepts("ZYNQ5O")
  {
    assert "unicom"[5] != SecretCode[5];
    assert "ZYNQ5O"[5] != ProtocolCode[5] && "ZYNQ5O"[5] != Ascii.LowerChar(ProtocolCode[5]);
  }

  class PreLoginPage {
    const storage: Browser.Storage
    var step: nat
    var checkingSession: bool
    var redirect: Option<Route>

    constructor (s: Browser.Storage)
      ensures storage == s && step == 1 && checkingSession && redirect == None
    {
      storage := s;
      step := 1;
      checkingSession := true;
      redirect := None;
    }

    /** The mount effect: a tab that already passed the gate goes straight to /login and
        never sees the steps. */
    method CheckSession()
      modifies this
      ensures step == old(step)
      ensures Browser.Lookup(storage.session, PreLoginKey) == Some("true") ==>
        redirect == Some(LoginRoute) && checkingSession == old(checkingSession)
      ensures Browser.Lookup(storage.session, PreLoginKey) != Some("true") ==>
        redirect == old(redirect) && !checkingSession
    {
      if Browser.Lookup(storage.session, PreLoginKey) == Some("true") {
        redirect := Some(LoginRoute);
      } else {
        checkingSession := false;
      }
    }

    /** Submitting the step-1 form (shown only at step 1): an accepted code moves on to step 2. */
    method SubmitStep1(code: string) returns (accepted: bool)
      requires !checkingSession && step == 1
      modifies this`step
      ensures accepted == Step1Accepts(code)
      ensures step == if accepted then 2 else 1
    {
      accepted := Step1Accepts(code);
      if accepted {
        step := 2;
      }
    }

    /** Submitting the step-2 form: only an accepted code sets the flag and leaves for /login. */
    method SubmitStep2(code: string) returns (accepted: bool)
      requires !checkingSession && step == 2
      modifies this`redirect, storage
      ensures accepted == Step2Accepts(code)
      ensures accepted ==> storage.session == old(storage.session)[PreLoginKey := "true"] && redirect == Some(LoginRoute)
      ensures !accepted ==> storage.session == old(storage.session) && redirect == old(redirect)
      ensures storage.local == old(storage.local)
    {
      accepted := Step2Accepts(code);
      if accepted {
        storage.session := storage.session[PreLoginKey := "true"];
        redirect := Some(LoginRoute);
      }
    }
  }

  /** A first visit: the flag ends up set exactly when both codes are accepted, and the
      second code is only asked for once the first has been accepted. */
  method FirstVisit(code1: string, code2: string) returns (reachedStep2: bool, flagSet: bool)
    ensures reachedStep2 <==> Step1Accepts(code1)
    ensures flagSet <==> Step1Accepts(code1) && Step2Accepts(code2)
  {
    var s := new Browser.Storage(map[], map[]);
    var page := new PreLoginPage(s);
    page.CheckSession();
    var ok1 := page.SubmitStep1(code1);
    reachedStep2 := page.step == 2;
    if ok1 {
      var ok2 := page.SubmitStep2(code2);
    }
    flagSet := Browser.Lookup(s.session, PreLoginKey) == Some("true");
  }

  /** A visit to a tab that already passed the gate redirects without showing the steps. */
  method ReturningVisit(session0: map<string, string>) returns (shown: bool, target: Option<Route>)
    requires Browser.Lookup(session0, PreLoginKey) == Some("true")
    ensures !shown && target == Some(LoginRoute)
  {
    var s := new Browser.Storage(map[], session0);
    var page := new PreLoginPage(s);
    page.CheckSession();
    shown := !page.checkingSession;
    target := page.redirect;
  }
}
