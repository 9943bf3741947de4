/** The passphrase dialog itself (`AskPassphraseDialog`): its three passphrase fields, the
    OK button it enables or disables as the user types, the submission it performs when OK
    is pressed, and the wipe it performs when it is destroyed.  Message boxes, the
    confirmation prompt's answer and QApplication::quit() are reported in the `Outcome` that
    `Accept` returns; the global fWalletUnlockMintOnly is reported there too. */
module AskPassphrase {
  import opened Wallet
  import opened PassphraseRules

  class AskPassphraseDialog {
    const mode: Mode
    /** The wallet model the dialog acts on; null until SetModel is called. */
    var model: WalletModel?
    /** The texts of passEdit1 (old), passEdit2 (new) and passEdit3 (repeat new). */
    var passEdit1: string
    var passEdit2: string
    var passEdit3: string
    /** The fields currently shown. */
    var visible: set<Slot>
    /** The minting checkbox: shown and its state. */
    var mintingVisible: bool
    var mintingChecked: bool
    /** Whether the OK button is enabled. */
    var okEnabled: bool

    /** The dialog's invariant: it shows the fields of its mode, and the OK button reflects
        the current texts. */
    ghost predicate Valid()
      reads this
    {
      visible == VisibleSlots(mode) &&
      okEnabled == Acceptable(mode, passEdit1, passEdit2, passEdit3)
    }

    /** The text of one field. */
    function Field(slot: Slot): string
      reads this
    {
      Text(slot, passEdit1, passEdit2, passEdit3)
    }

    constructor (mode: Mode)
      ensures Valid()
      ensures this.mode == mode && model == null
      ensures passEdit1 == "" && passEdit2 == "" && passEdit3 == ""
      ensures !okEnabled
      ensures mintingVisible == mintingChecked == (mode == UnlockMinting)
    {
      this.mode := mode;
      model := null;
      passEdit1, passEdit2, passEdit3 := "", "", "";
      visible := {Old, New1, New2};
      mintingVisible, mintingChecked := false, false;
      okEnabled := false;
      new;
      match mode {
        case Encrypt =>
          visible := visible - {Old};
        case UnlockMinting =>
          mintingChecked, mintingVisible := true, true;
          visible := visible - {New1, New2};
        case Unlock =>
          visible := visible - {New1, New2};
        case EncryptOnExit =>
          visible := visible - {Old};
        case DecryptOnStart =>
          visible := visible - {New1, New2};
        case Decrypt =>
          visible := visible - {New1, New2};
        case ChangePass =>
      }
      TextChanged();
    }

    method SetModel(model: WalletModel?)
      modifies this`model
      ensures this.model == model
    {
      this.model := model;
    }

    /** The textChanged slot: re-evaluate whether OK is enabled. */
    method TextChanged()
      modifies this`okEnabled
      ensures okEnabled == Acceptable(mode, passEdit1, passEdit2, passEdit3)
    {
      var acceptable := false;
      match mode {
        case Encrypt =>
          acceptable := passEdit2 != "" && passEdit3 != "";
        case UnlockMinting =>
          acceptable := passEdit1 != "";
        case Unlock =>
          acceptable := passEdit1 != "";
        case EncryptOnExit =>
          acceptable := passEdit2 != "" && passEdit3 != "" && passEdit2 == passEdit3;
        case DecryptOnStart =>
          acceptable := passEdit1 != "";
        case Decrypt =>
          acceptable := passEdit1 != "";
        case ChangePass =>
          acceptable := passEdit1 != "" && passEdit2 != "" && passEdit3 != "";
      }
      okEnabled := acceptable;
    }

    /** setText on one field, which fires its textChanged signal. */
    method SetText(slot: Slot, text: string)
      requires Valid()
      modifies this`passEdit1, this`passEdit2, this`passEdit3, this`okEnabled
      ensures Valid()
      ensures Field(slot) == text
      ensures forall s :: s != slot ==> Field(s) == old(Field(s))
    {
      match slot {
        case Old => passEdit1 := text;
        case New1 => passEdit2 := text;
        case New2 => passEdit3 := text;
      }
      TextChanged();
    }

    method SetMintingChecked(checked: bool)
      modifies this`mintingChecked
      ensures mintingChecked == checked
    {
      mintingChecked := checked;
    }

    /** The accept slot: one press of OK.  `answer` is what the user answers if a confirmation
        prompt is shown; `reply` is what the wallet query made by this press returned.  Every
        mode but DecryptOnStart dereferences the wallet model. */
    method Accept(answer: Answer) returns (outcome: Outcome, reply: bool, ghost transient: CWallet?)
      requires mode != DecryptOnStart ==> model != null
      modifies model
      ensures outcome == Submit(mode, passEdit1, passEdit2, passEdit3, answer, mintingChecked, reply)
      ensures mode != DecryptOnStart ==> model.log == old(model.log) + outcome.walletCalls
      ensures mode != DecryptOnStart ==>
        model.replies == old(model.replies) + (if outcome.walletCalls != [] then [reply] else [])
      ensures mode == DecryptOnStart ==>
        transient != null && fresh(transient) && transient.released &&
        transient.log == outcome.walletCalls && transient.replies == [reply]
      ensures mode == DecryptOnStart && model != null ==> unchanged(model)
    {
      var oldpass, newpass1, newpass2 := passEdit1, passEdit2, passEdit3;
      transient := null;
      match mode {
        case Encrypt =>
          outcome, reply := EncryptWallet(newpass1, newpass2, answer);
        case UnlockMinting =>
          var mintOnly := Some(mintingChecked);
          outcome, reply := UnlockWallet(oldpass);
          outcome := outcome.(mintOnly := mintOnly);
        case Unlock =>
          outcome, reply := UnlockWallet(oldpass);
        case EncryptOnExit =>
          outcome, reply := EncryptWalletData(newpass1, newpass2, answer);
        case DecryptOnStart =>
          outcome, reply, transient := DecryptWalletDataOnStart(oldpass);
        case Decrypt =>
          outcome, reply := DecryptWallet(oldpass);
        case ChangePass =>
          outcome, reply := ChangeWalletPassphrase(oldpass, newpass1, newpass2);
      }
    }

    /** The Encrypt branch of accept. */
    method EncryptWallet(newpass1: string, newpass2: string, answer: Answer)
      returns (outcome: Outcome, reply: bool)
      requires model != null
      modifies model
      ensures outcome == EncryptOutcome(newpass1, newpass2, answer, reply)
      ensures model.log == old(model.log) + outcome.walletCalls
      ensures model.replies == old(model.replies) + (if outcome.walletCalls != [] then [reply] else [])
    {
      var disposition, quit, calls, shown := Open, false, [], [];
      reply := false;
      if newpass1 != "" && newpass2 != "" {
        shown := shown + [Question];
        if answer == Yes {
          if newpass1 == newpass2 {
            reply := model.SetWalletEncrypted(true, newpass1);
            calls := calls + [WalletOp.SetWalletEncrypted(true, newpass1)];
            if reply {
              shown := shown + [Warning];
              quit := true;
            } else {
              shown := shown + [Critical];
            }
            disposition := Accepted;
          } else {
            shown := shown + [Critical];
          }
        } else {
          disposition := Rejected;
        }
      }
      outcome := Outcome(disposition, quit, calls, shown, None);
    }

    /** The Unlock branch of accept, which UnlockMinting falls through to. */
    method UnlockWallet(oldpass: string) returns (outcome: Outcome, reply: bool)
      requires model != null
      modifies model
      ensures outcome == QueryOutcome(WalletOp.SetWalletLocked(false, oldpass), reply)
      ensures model.log == old(model.log) + outcome.walletCalls
      ensures model.replies == old(model.replies) + (if outcome.walletCalls != [] then [reply] else [])
    {
      var disposition, shown := Open, [];
      reply := model.SetWalletLocked(false, oldpass);
      if !reply {
        shown := shown + [Critical];
      } else {
        disposition := Accepted;
      }
      outcome := Outcome(disposition, false, [WalletOp.SetWalletLocked(false, oldpass)], shown, None);
    }

    /** The EncryptOnExit branch of accept. */
    method EncryptWalletData(newpass1: string, newpass2: string, answer: Answer)
      returns (outcome: Outcome, reply: bool)
      requires model != null
      modifies model
      ensures outcome == EncryptOnExitOutcome(newpass1, newpass2, answer, reply)
      ensures model.log == old(model.log) + outcome.walletCalls
      ensures model.replies == old(model.replies) + (if outcome.walletCalls != [] then [reply] else [])
    {
      var disposition, quit, calls, shown := Open, false, [], [];
      reply := false;
      if newpass1 != "" && newpass2 != "" {
        shown := shown + [Question];
        if answer == Yes {
          if newpass1 == newpass2 {
            reply := model.SetWalletDataEncrypted(true, newpass1);
            calls := calls + [WalletOp.SetWalletDataEncrypted(true, newpass1)];
            if reply {
              shown := shown + [Warning];
            } else {
              shown := shown + [Critical];
            }
            disposition := Accepted;
          } else {
            shown := shown + [Critical];
          }
        } else {
          shown := shown + [Critical];
          disposition := Rejected;
        }
        quit := true;
      }
      outcome := Outcome(disposition, quit, calls, shown, None);
    }

    /** The DecryptOnStart branch of accept: a transient wallet on the wallet file, released
        on both paths; the wallet model is not used. */
    method DecryptWalletDataOnStart(oldpass: string)
      returns (outcome: Outcome, reply: bool, ghost wallet: CWallet)
      ensures outcome == DecryptOnStartOutcome(oldpass, reply)
      ensures fresh(wallet) && wallet.released
      ensures wallet.log == outcome.walletCalls && wallet.replies == [reply]
    {
      var disposition, quit, shown := Open, false, [];
      var w := new CWallet(WalletFile);
      wallet := w;
      reply := w.DecryptWalletData(oldpass);
      if !reply {
        shown := shown + [Critical];
        disposition := Rejected;
        w.Release();
        quit := true;
      } else {
        w.Release();
        disposition := Accepted;
      }
      outcome := Outcome(disposition, quit, w.log, shown, None);
    }

    /** The Decrypt branch of accept. */
    method DecryptWallet(oldpass: string) returns (outcome: Outcome, reply: bool)
      requires model != null
      modifies model
      ensures outcome == QueryOutcome(WalletOp.SetWalletEncrypted(false, oldpass), reply)
      ensures model.log == old(model.log) + outcome.walletCalls
      ensures model.replies == old(model.replies) + (if outcome.walletCalls != [] then [reply] else [])
    {
      var disposition, shown := Open, [];
      reply := model.SetWalletEncrypted(false, oldpass);
      if !reply {
        shown := shown + [Critical];
      } else {
        disposition := Accepted;
      }
      outcome := Outcome(disposition, false, [WalletOp.SetWalletEncrypted(false, oldpass)], shown, None);
    }

    /** The ChangePass branch of accept. */
    method ChangeWalletPassphrase(oldpass: string, newpass1: string, newpass2: string)
      returns (outcome: Outcome, reply: bool)
      requires model != null
      modifies model
      ensures outcome == ChangePassOutcome(oldpass, newpass1, newpass2, reply)
      ensures model.log == old(model.log) + outcome.walletCalls
      ensures model.replies == old(model.replies) + (if outcome.walletCalls != [] then [reply] else [])
    {
      var disposition, calls, shown := Open, [], [];
      reply := false;
      if newpass1 == newpass2 {
        reply := model.ChangePassphrase(oldpass, newpass1);
        calls := calls + [WalletOp.ChangePassphrase(oldpass, newpass1)];
        if reply {
          shown := shown + [Information];
          disposition := Accepted;
        } else {
          shown := shown + [Critical];
        }
      } else {
        shown := shown + [Critical];
      }
      outcome := Outcome(disposition, false, calls, shown, None);
    }

    /** The destructor: overwrite every field with as many spaces as it holds characters. */
    method Destroy()
      requires Valid()
      modifies this`passEdit1, this`passEdit2, this`passEdit3, this`okEnabled
      ensures Valid()
      ensures forall s :: |Field(s)| == |old(Field(s))|
      ensures forall s, i :: 0 <= i < |Field(s)| ==> Field(s)[i] == ' '
    {
      SetText(Old, Wiped(passEdit1));
      SetText(New1, Wiped(passEdit2));
      SetText(New2, Wiped(passEdit3));
    }
  }
}
