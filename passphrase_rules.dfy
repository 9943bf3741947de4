/** The decision procedure under the passphrase dialog: which fields each mode shows,
    when its OK button is enabled, what one press of OK does in each mode, and how a
    field is wiped.  Everything here is a pure function of its arguments; the dialog
    class in module AskPassphrase performs the same steps on its own state. */
module PassphraseRules {
  import opened Wallet

  /** The operation the dialog was opened for; fixed at construction. */
  datatype Mode =
    | Encrypt          // encrypt the wallet keys: new passphrase twice
    | UnlockMinting    // unlock for minting only: passphrase, plus the minting checkbox
    | Unlock           // unlock: passphrase
    | EncryptOnExit    // encrypt the whole wallet file: new passphrase twice
    | DecryptOnStart   // decrypt the wallet file at startup: passphrase
    | Decrypt          // decrypt the wallet keys: passphrase
    | ChangePass       // old passphrase, new passphrase twice

  /** The three passphrase fields: passEdit1 (old), passEdit2 (new), passEdit3 (repeat new). */
  datatype Slot = Old | New1 | New2

  /** The user's answer to a confirmation prompt. */
  datatype Answer = Yes | No | Cancel

  /** What happened to the dialog: neither accept() nor reject() was called, or which one was. */
  datatype Disposition = Open | Accepted | Rejected

  /** The kind of message box shown; `Question` is the blocking confirmation prompt. */
  datatype Severity = Question | Information | Warning | Critical

  datatype Option<T> = None | Some(value: T)

  /** What one press of OK produced. */
  datatype Outcome = Outcome(
    disposition: Disposition,
    quitRequested: bool,           // QApplication::quit() was called
    walletCalls: seq<WalletOp>,    // the wallet operations performed, in order
    messages: seq<Severity>,       // the message boxes shown, in order
    mintOnly: Option<bool>)        // the value written to fWalletUnlockMintOnly, if written

  /** The outcome of a press that does nothing at all. */
  const Untouched := Outcome(Open, false, [], [], None)

  /** The wallet file that startup decryption opens. */
  const WalletFile := "wallet.dat"

  /** The text of one slot, given the three field contents. */
  function Text(slot: Slot, oldPass: string, new1: string, new2: string): string {
    match slot
    case Old => oldPass
    case New1 => new1
    case New2 => new2
  }

  // ---------------------------------------------------------------------------
  // Field visibility (the constructor's mode switch)
  // ---------------------------------------------------------------------------

  /** The fields a mode leaves visible. */
  function VisibleSlots(mode: Mode): (r: set<Slot>)
    ensures Old in r <==> mode != Encrypt && mode != EncryptOnExit
    ensures New1 in r <==> mode == Encrypt || mode == EncryptOnExit || mode == ChangePass
    ensures New1 in r <==> New2 in r
    ensures r != {}
  {
    match mode
    case Encrypt | EncryptOnExit => {New1, New2}
    case UnlockMinting | Unlock | DecryptOnStart | Decrypt => {Old}
    case ChangePass => {Old, New1, New2}
  }

  // ---------------------------------------------------------------------------
  // The OK-enabled predicate (textChanged)
  // ---------------------------------------------------------------------------

  /** Whether the OK button is enabled for the given field contents. */
  predicate Acceptable(mode: Mode, oldPass: string, new1: string, new2: string) {
    match mode
    case Encrypt => new1 != "" && new2 != ""
    case UnlockMinting => oldPass != ""
    case Unlock => oldPass != ""
    case EncryptOnExit => new1 != "" && new2 != "" && new1 == new2
    case DecryptOnStart => oldPass != ""
    case Decrypt => oldPass != ""
    case ChangePass => oldPass != "" && new1 != "" && new2 != ""
  }

  /** OK is enabled exactly when every visible field is filled in, and, in EncryptOnExit
      alone, the two new passphrases also agree. */
  lemma AcceptableIffVisibleFilled(mode: Mode, oldPass: string, new1: string, new2: string)
    ensures Acceptable(mode, oldPass, new1, new2) <==>
      (forall s :: s in VisibleSlots(mode) ==> Text(s, oldPass, new1, new2) != "") &&
      (mode == EncryptOnExit ==> new1 == new2)
  {
    assert Text(Old, oldPass, new1, new2) == oldPass;
    assert Text(New1, oldPass, new1, new2) == new1;
    assert Text(New2, oldPass, new1, new2) == new2;
  }

  /** The contents of a hidden field never affect the OK button. */
  lemma AcceptableIgnoresHiddenFields(mode: Mode, o: string, a: string, b: string,
                                      o': string, a': string, b': string)
    requires forall s :: s in VisibleSlots(mode) ==> Text(s, o, a, b) == Text(s, o', a', b')
    ensures Acceptable(mode, o, a, b) == Acceptable(mode, o', a', b')
  {
    AcceptableIffVisibleFilled(mode, o, a, b);
    AcceptableIffVisibleFilled(mode, o', a', b');
    if mode == EncryptOnExit {
      assert Text(New1, o, a, b) == Text(New1, o', a', b');
      assert Text(New2, o, a, b) == Text(New2, o', a', b');
    }
  }

  // ---------------------------------------------------------------------------
  // One press of OK (accept), mode by mode
  // ---------------------------------------------------------------------------

  /** Encrypt: confirm, compare, encrypt the keys, and close the dialog whether or not the
      encryption worked; quit only when it did. */
  function EncryptOutcome(new1: string, new2: string, answer: Answer, ok: bool): (r: Outcome)
    ensures new1 == "" || new2 == "" ==> r == Untouched
    ensures new1 != "" && new2 != "" ==> |r.messages| >= 1 && r.messages[0] == Question
    ensures r.walletCalls ==
      if new1 != "" && new2 != "" && answer == Yes && new1 == new2
      then [WalletOp.SetWalletEncrypted(true, new1)] else []
    ensures r.disposition == Rejected <==> new1 != "" && new2 != "" && answer != Yes
    ensures r.disposition == Accepted <==> r.walletCalls != []
    ensures r.quitRequested <==> r.walletCalls != [] && ok
    ensures new1 != "" && new2 != "" && answer == Yes && new1 != new2 ==>
      r.disposition == Open && r.messages == [Question, Critical]
    ensures new1 != "" && new2 != "" ==>
      r.messages == [Question] + (if answer != Yes then [] else [if new1 == new2 && ok then Warning else Critical])
    ensures r.mintOnly == None
  {
    if new1 == "" || new2 == "" then Untouched
    else if answer != Yes then Outcome(Rejected, false, [], [Question], None)
    else if new1 != new2 then Outcome(Open, false, [], [Question, Critical], None)
    else Outcome(Accepted, ok, [WalletOp.SetWalletEncrypted(true, new1)],
                 [Question, if ok then Warning else Critical], None)
  }

  /** Unlock and Decrypt: one wallet call with the passphrase; the dialog closes on success
      and stays open, with an error shown, on failure. */
  function QueryOutcome(op: WalletOp, ok: bool): (r: Outcome)
    ensures r.walletCalls == [op]
    ensures r.disposition == Accepted <==> ok
    ensures r.disposition != Rejected
    ensures r.messages == [] <==> ok
    ensures r.messages == if ok then [] else [Critical]
    ensures !r.quitRequested && r.mintOnly == None
  {
    Outcome(if ok then Accepted else Open, false, [op], if ok then [] else [Critical], None)
  }

  /** EncryptOnExit: once both new passphrases are filled in, the application quits on every
      path; the dialog closes when the user confirms with matching passphrases, whatever the
      encryption returned. */
  function EncryptOnExitOutcome(new1: string, new2: string, answer: Answer, ok: bool): (r: Outcome)
    ensures new1 == "" || new2 == "" ==> r == Untouched
    ensures r.quitRequested <==> new1 != "" && new2 != ""
    ensures r.disposition == Accepted <==> new1 != "" && new2 != "" && answer == Yes && new1 == new2
    ensures r.disposition == Rejected <==> new1 != "" && new2 != "" && answer != Yes
    ensures r.walletCalls ==
      if r.disposition == Accepted then [WalletOp.SetWalletDataEncrypted(true, new1)] else []
    ensures new1 != "" && new2 != "" ==>
      r.messages == [Question, if r.disposition == Accepted && ok then Warning else Critical]
    ensures r.mintOnly == None
  {
    if new1 == "" || new2 == "" then Untouched
    else if answer == Yes then
      if new1 == new2 then
        Outcome(Accepted, true, [WalletOp.SetWalletDataEncrypted(true, new1)],
                [Question, if ok then Warning else Critical], None)
      else Outcome(Open, true, [], [Question, Critical], None)
    else Outcome(Rejected, true, [], [Question, Critical], None)
  }

  /** DecryptOnStart: open the wallet file directly, decrypt it, release it on both paths;
      a wrong passphrase rejects the dialog and quits. */
  function DecryptOnStartOutcome(oldPass: string, ok: bool): (r: Outcome)
    ensures r.walletCalls == [OpenWallet(WalletFile), WalletOp.DecryptWalletData(oldPass), ReleaseWallet]
    ensures Queries(r.walletCalls) == [WalletOp.DecryptWalletData(oldPass)]
    ensures ok ==> r.disposition == Accepted && !r.quitRequested && r.messages == []
    ensures !ok ==> r.disposition == Rejected && r.quitRequested && r.messages == [Critical]
    ensures r.mintOnly == None
  {
    var calls := [OpenWallet(WalletFile), WalletOp.DecryptWalletData(oldPass), ReleaseWallet];
    assert Queries(calls[2..]) == [] by { assert calls[2..][1..] == []; }
    assert Queries(calls[1..]) == [WalletOp.DecryptWalletData(oldPass)] by { assert calls[1..][1..] == calls[2..]; }
    if ok then Outcome(Accepted, false, calls, [], None)
    else Outcome(Rejected, true, calls, [Critical], None)
  }

  /** ChangePass: change the passphrase only when the two new ones match; the dialog closes
      only when the change succeeded, and every press reports exactly one message. */
  function ChangePassOutcome(oldPass: string, new1: string, new2: string, ok: bool): (r: Outcome)
    ensures r.walletCalls == if new1 == new2 then [WalletOp.ChangePassphrase(oldPass, new1)] else []
    ensures r.disposition == Accepted <==> new1 == new2 && ok
    ensures r.disposition != Rejected
    ensures r.messages == [if r.disposition == Accepted then Information else Critical]
    ensures !r.quitRequested && r.mintOnly == None
  {
    if new1 == new2 then
      if ok then Outcome(Accepted, false, [WalletOp.ChangePassphrase(oldPass, new1)], [Information], None)
      else Outcome(Open, false, [WalletOp.ChangePassphrase(oldPass, new1)], [Critical], None)
    else Outcome(Open, false, [], [Critical], None)
  }

  /** One press of OK in `mode`, given the three field contents, the answer the user gives to
      a confirmation prompt, the minting checkbox, and `ok`, the answer of the wallet query
      the press makes (ignored when it makes none). */
  function Submit(mode: Mode, oldPass: string, new1: string, new2: string,
                  answer: Answer, mintingChecked: bool, ok: bool): (r: Outcome)
    ensures r.mintOnly == if mode == UnlockMinting then Some(mintingChecked) else None
    ensures forall op :: op in r.walletCalls ==> (op.OnModel() <==> mode != DecryptOnStart)
    ensures |Queries(r.walletCalls)| <= 1
    ensures r.disposition == Accepted ==> |Queries(r.walletCalls)| == 1
    ensures r.disposition == Accepted && !ok ==> mode == Encrypt || mode == EncryptOnExit
    ensures r.disposition == Rejected <==>
      || ((mode == Encrypt || mode == EncryptOnExit) && new1 != "" && new2 != "" && answer != Yes)
      || (mode == DecryptOnStart && !ok)
    ensures Queries(r.walletCalls) != [] && !ok ==> Critical in r.messages
    ensures r.quitRequested <==>
      || (mode == Encrypt && r.walletCalls != [] && ok)
      || (mode == EncryptOnExit && new1 != "" && new2 != "")
      || (mode == DecryptOnStart && !ok)
  {
    match mode
    case Encrypt => EncryptOutcome(new1, new2, answer, ok)
    case UnlockMinting =>
      QueryOutcome(WalletOp.SetWalletLocked(false, oldPass), ok).(mintOnly := Some(mintingChecked))
    case Unlock => QueryOutcome(WalletOp.SetWalletLocked(false, oldPass), ok)
    case EncryptOnExit => EncryptOnExitOutcome(new1, new2, answer, ok)
    case DecryptOnStart => DecryptOnStartOutcome(oldPass, ok)
    case Decrypt => QueryOutcome(WalletOp.SetWalletEncrypted(false, oldPass), ok)
    case ChangePass => ChangePassOutcome(oldPass, new1, new2, ok)
  }

  /** The answer of the wallet matters only to a press that asks the wallet something. */
  lemma SubmitIgnoresReplyWithoutQuery(mode: Mode, oldPass: string, new1: string, new2: string,
                                       answer: Answer, mintingChecked: bool)
    requires Submit(mode, oldPass, new1, new2, answer, mintingChecked, true).walletCalls == []
    ensures Submit(mode, oldPass, new1, new2, answer, mintingChecked, true)
         == Submit(mode, oldPass, new1, new2, answer, mintingChecked, false)
  {
  }

  /** A press of OK reads only the fields its mode shows. */
  lemma SubmitIgnoresHiddenFields(mode: Mode, o: string, a: string, b: string,
                                  o': string, a': string, b': string,
                                  answer: Answer, mintingChecked: bool, ok: bool)
    requires forall s :: s in VisibleSlots(mode) ==> Text(s, o, a, b) == Text(s, o', a', b')
    ensures Submit(mode, o, a, b, answer, mintingChecked, ok)
         == Submit(mode, o', a', b', answer, mintingChecked, ok)
  {
    if Old in VisibleSlots(mode) {
      assert Text(Old, o, a, b) == Text(Old, o', a', b');
    }
    if New1 in VisibleSlots(mode) {
      assert Text(New1, o, a, b) == Text(New1, o', a', b');
      assert Text(New2, o, a, b) == Text(New2, o', a', b');
    }
  }

  /** When OK is enabled, a press always does something: it is never the empty-passphrase
      no-op. */
  lemma AcceptableSubmitHasEffect(mode: Mode, oldPass: string, new1: string, new2: string,
                                  answer: Answer, mintingChecked: bool, ok: bool)
    requires Acceptable(mode, oldPass, new1, new2)
    ensures Submit(mode, oldPass, new1, new2, answer, mintingChecked, ok) != Untouched
  {
  }

  /** In EncryptOnExit the OK button already demands matching passphrases, so an enabled
      press that the user confirms always closes the dialog and encrypts: the mismatch
      branch of the protocol is reachable only when OK is pressed while disabled. */
  lemma EncryptOnExitEnabledNeverMismatches(oldPass: string, new1: string, new2: string,
                                            mintingChecked: bool, ok: bool)
    requires Acceptable(EncryptOnExit, oldPass, new1, new2)
    ensures Submit(EncryptOnExit, oldPass, new1, new2, Yes, mintingChecked, ok).disposition == Accepted
    ensures Submit(EncryptOnExit, oldPass, new1, new2, Yes, mintingChecked, ok).walletCalls
         == [WalletOp.SetWalletDataEncrypted(true, new1)]
  {
  }

  // ---------------------------------------------------------------------------
  // Wiping a field (the destructor)
  // ---------------------------------------------------------------------------

  /** `QString(" ").repeated(n)`. */
  function Spaces(n: nat): (r: string)
    ensures |r| == n
    ensures forall i :: 0 <= i < n ==> r[i] == ' '
  {
    if n == 0 then "" else Spaces(n - 1) + " "
  }

  /** A field's text after it is overwritten with spaces of the same length. */
  function Wiped(s: string): (r: string)
    ensures |r| == |s|
    ensures forall i :: 0 <= i < |r| ==> r[i] == ' '
  {
    Spaces(|s|)
  }

  /** Wiping leaves a text unchanged exactly when it is already blank, so wiping a wiped
      field again changes nothing. */
  lemma WipedFixesExactlyBlank(s: string)
    ensures Wiped(s) == s <==> forall i :: 0 <= i < |s| ==> s[i] == ' '
    ensures Wiped(Wiped(s)) == Wiped(s)
  {
  }
}
