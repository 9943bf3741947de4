# AskPassphraseDialog — a verified model of the wallet passphrase dialog

This project models the decision procedure inside CloakCoin's passphrase dialog
(`src/qt/askpassphrasedialog.cpp`). The dialog is opened in one of seven modes
(`Encrypt`, `UnlockMinting`, `Unlock`, `EncryptOnExit`, `DecryptOnStart`, `Decrypt`,
`ChangePass`). The model covers four parts:

- which of its three passphrase fields (old, new, repeat new) each mode shows;
- when the OK button is enabled;
- what one press of OK does: the confirmation prompt, the passphrase comparison, the wallet
  operation, the message boxes, whether the dialog is accepted, rejected or left open, and
  whether the application is told to quit;
- how the destructor overwrites the fields with spaces.

Layout:

- `wallet.dfy`, module `Wallet`: the wallet collaborators. `WalletModel` is the wallet model
  the dialog is attached to. `CWallet` is the wallet that startup decryption opens directly on
  `wallet.dat`. Each operation that answers with a bool answers with an arbitrary one. Each
  records itself, with its arguments, in the object's call log, and records its answer in a
  ghost log of replies.
- `passphrase_rules.dfy`, module `PassphraseRules`: the pure rules. `VisibleSlots` gives each
  mode's fields and `Acceptable` is the OK-enabled predicate. There is one outcome function per
  mode, and `Submit` dispatches over them. `Spaces` and `Wiped` describe the wipe. The lemmas
  tie these together.
- `ask_passphrase_dialog.dfy`, module `AskPassphrase`: the dialog as a class. Its fields are the
  three field texts, the visible fields, the minting checkbox and the OK button state. Its
  methods mirror the source: the constructor, `SetModel`, the `TextChanged` slot, `SetText`
  (typing into a field fires `textChanged`), `Accept` and `Destroy`. `Accept` performs the
  protocol step by step against the wallet objects, with one method per branch of the mode
  switch. UnlockMinting records the checkbox and then takes the Unlock branch. The
  postcondition of `Accept` says that its outcome is `Submit` applied to the field texts, the
  prompt answer, the checkbox and the wallet's answer.
  It also says that the wallet model's log grew by exactly the calls reported in the outcome.
  The answer passed to `Submit` is the one the wallet recorded in its reply log, so the
  outcome follows what the wallet actually returned.

An `Outcome` records the disposition (`Open`, `Accepted`, `Rejected`), whether
`QApplication::quit()` was called, the wallet operations in order, the message boxes in order
(`Question` stands for the confirmation prompt), and the value written to
`fWalletUnlockMintOnly`, if one was written. The model reports the global flag and the quit
request in the outcome. It does not model them as global state.

The dialog starts with a null wallet model, and the null check in `accept` is commented out.
So `Accept` requires a non-null model in every mode except `DecryptOnStart`, which never
touches the model.

The model follows the code as written, including these points:

- `EncryptOnExit` calls `QApplication::quit()` on every path once both new passphrases are
  non-empty. That includes a mismatch, which leaves the dialog open, and a declined prompt.
  The quit call inside the success branch is commented out, so the success path reaches only
  the unconditional quit after the branch.
- `Encrypt` accepts the dialog even when encryption fails. It quits only when encryption
  succeeded.
- A declined `Encrypt` prompt calls `reject()`. The model reports this as `Rejected`.
- `DecryptOnStart` releases its transient wallet on both paths.
- `ChangePass` does not check emptiness in `accept`. Only the OK button does.

## Model

| member | source | states |
|---|---|---|
| PassphraseRules.VisibleSlots | src/qt/askpassphrasedialog.cpp:31-77 | The old field is shown in every mode except the two encrypt modes. The two new-passphrase fields are shown together, in Encrypt, EncryptOnExit and ChangePass only. Every mode shows at least one field. |
| AskPassphrase.AskPassphraseDialog.constructor | src/qt/askpassphrasedialog.cpp:14-83 | A new dialog has no wallet model, empty fields, the fields of its mode shown and OK disabled. The minting checkbox is shown and checked exactly in UnlockMinting. |
| AskPassphrase.AskPassphraseDialog.SetModel | src/qt/askpassphrasedialog.cpp:94-97 | Attaches the given wallet model. |
| AskPassphrase.AskPassphraseDialog.TextChanged | src/qt/askpassphrasedialog.cpp:281-310 | Sets the OK button to the acceptability predicate of the current field texts. |
| AskPassphrase.AskPassphraseDialog.SetText | src/qt/askpassphrasedialog.cpp:80-82 | Changing one field leaves the other two unchanged and keeps the OK button in step with the texts. |
| PassphraseRules.Acceptable | src/qt/askpassphrasedialog.cpp:284-308 | The OK-enabled expression of each mode: the old passphrase non-empty in the unlock and decrypt modes, both new passphrases non-empty in Encrypt, all three in ChangePass, and both new passphrases non-empty and equal in EncryptOnExit. |
| PassphraseRules.AcceptableIffVisibleFilled | src/qt/askpassphrasedialog.cpp:284-308 | OK is enabled iff every visible field is non-empty and, in EncryptOnExit only, the two new passphrases are equal. |
| PassphraseRules.AcceptableIgnoresHiddenFields | src/qt/askpassphrasedialog.cpp:284-308 | The contents of hidden fields never change whether OK is enabled. |
| PassphraseRules.EncryptOutcome | src/qt/askpassphrasedialog.cpp:116-162 | An empty new passphrase is a no-op. Any answer but Yes rejects with no wallet call. Yes with a mismatch shows an error, makes no call and leaves the dialog open. Yes with a match calls setWalletEncrypted(true, new) once and accepts whatever it returns. Quit is requested iff that call returned true. After the prompt, a warning follows a successful encryption and a critical message follows a mismatch or a failed encryption; a declined prompt shows nothing more. |
| PassphraseRules.QueryOutcome | src/qt/askpassphrasedialog.cpp:163-256 | Unlock and Decrypt make exactly one wallet call. The dialog is accepted iff the call returned true; otherwise it stays open with exactly one critical message shown, and on success no message is shown. They never reject and never quit. |
| PassphraseRules.EncryptOnExitOutcome | src/qt/askpassphrasedialog.cpp:176-223 | An empty new passphrase is a no-op. Otherwise quit is always requested. The dialog is accepted iff the answer is Yes and the passphrases match, and rejected iff the answer is not Yes. setWalletDataEncrypted(true, new) is called only when accepted. |
| PassphraseRules.DecryptOnStartOutcome | src/qt/askpassphrasedialog.cpp:225-244 | Opens wallet.dat, decrypts it with the old passphrase and releases it on both paths; that decryption is its only query. Success accepts without quitting. Failure rejects, shows an error and requests quit. |
| PassphraseRules.ChangePassOutcome | src/qt/askpassphrasedialog.cpp:257-277 | changePassphrase(old, new) is called iff the new passphrases match. The dialog is accepted iff that call happened and returned true. Every press shows exactly one message, information on success and critical otherwise. |
| PassphraseRules.Submit | src/qt/askpassphrasedialog.cpp:99-279 | Only UnlockMinting writes the mint-only flag, and it writes the checkbox value. DecryptOnStart alone never touches the wallet model. Each press makes at most one wallet query, and an accepted press always made one. Only the encrypt modes accept after a failed wallet call. The dialog is rejected exactly when the Encrypt or EncryptOnExit prompt, shown for two non-empty new passphrases, is not answered Yes, or when startup decryption fails. Whenever a wallet query fails, a critical message is shown. Quit is requested exactly after a successful Encrypt, after any non-empty EncryptOnExit, or after a failed DecryptOnStart. |
| AskPassphrase.AskPassphraseDialog.Accept | src/qt/askpassphrasedialog.cpp:99-279 | The outcome of one press is what Submit prescribes for the current fields, answer, checkbox and wallet answer. That answer is the one the wallet recorded: outside DecryptOnStart the model's reply log grows by it exactly when a call was made; in DecryptOnStart a fresh, released transient wallet holds the press's calls and that single answer. The wallet model's log grows by exactly the calls reported. In DecryptOnStart the wallet model, its log and reply log included, is left entirely unchanged. |
| AskPassphrase.AskPassphraseDialog.EncryptWallet | src/qt/askpassphrasedialog.cpp:116-162 | The Encrypt branch produces exactly EncryptOutcome for the new passphrases, the answer and the wallet's reply. It calls the wallet model only with the calls it reports. The reply it uses is the answer the wallet model recorded for that call. |
| AskPassphrase.AskPassphraseDialog.UnlockWallet | src/qt/askpassphrasedialog.cpp:165-175 | The Unlock branch makes the single setWalletLocked(false, old) call and produces QueryOutcome for its reply. The reply it uses is the answer the wallet model recorded for that call. |
| AskPassphrase.AskPassphraseDialog.EncryptWalletData | src/qt/askpassphrasedialog.cpp:176-223 | The EncryptOnExit branch produces exactly EncryptOnExitOutcome. It calls the wallet model only with the calls it reports. The reply it uses is the answer the wallet model recorded for that call. |
| AskPassphrase.AskPassphraseDialog.DecryptWalletDataOnStart | src/qt/askpassphrasedialog.cpp:225-244 | The DecryptOnStart branch works on a fresh wallet opened on wallet.dat, never on the model. It produces exactly DecryptOnStartOutcome, including the release on both paths. The reply it uses is the one answer that fresh wallet recorded. |
| AskPassphrase.AskPassphraseDialog.DecryptWallet | src/qt/askpassphrasedialog.cpp:246-256 | The Decrypt branch makes the single setWalletEncrypted(false, old) call and produces QueryOutcome for its reply. The reply it uses is the answer the wallet model recorded for that call. |
| AskPassphrase.AskPassphraseDialog.ChangeWalletPassphrase | src/qt/askpassphrasedialog.cpp:257-277 | The ChangePass branch produces exactly ChangePassOutcome. It calls the wallet model only with the calls it reports. The reply it uses is the answer the wallet model recorded for that call. |
| PassphraseRules.SubmitIgnoresReplyWithoutQuery | src/qt/askpassphrasedialog.cpp:114-278 | A press that makes no wallet call does not depend on what the wallet would have answered. |
| PassphraseRules.SubmitIgnoresHiddenFields | src/qt/askpassphrasedialog.cpp:101-112 | Although all three fields are read, a press depends only on the fields its mode shows. |
| PassphraseRules.AcceptableSubmitHasEffect | src/qt/askpassphrasedialog.cpp:116-121 | When OK is enabled, a press is never the empty-passphrase no-op. |
| PassphraseRules.EncryptOnExitEnabledNeverMismatches | src/qt/askpassphrasedialog.cpp:186-214 | In EncryptOnExit an enabled, confirmed press always encrypts and accepts. The mismatch branch is reachable only with OK disabled. |
| PassphraseRules.Spaces | src/qt/askpassphrasedialog.cpp:88-90 | `" "` repeated n times has length n and holds only spaces. |
| PassphraseRules.Wiped | src/qt/askpassphrasedialog.cpp:88-90 | A wiped text has the original length and holds only spaces. |
| PassphraseRules.WipedFixesExactlyBlank | src/qt/askpassphrasedialog.cpp:88-90 | Wiping leaves a text unchanged iff it is already all spaces, so wiping twice equals wiping once. |
| AskPassphrase.AskPassphraseDialog.Destroy | src/qt/askpassphrasedialog.cpp:85-92 | After destruction every field keeps its length and holds only spaces, and the OK button is still in step with the texts. |
| Wallet.WalletModel.SetWalletEncrypted | src/qt/askpassphrasedialog.cpp:130 | Records setWalletEncrypted with its arguments; the answer is arbitrary. |
| Wallet.WalletModel.SetWalletLocked | src/qt/askpassphrasedialog.cpp:166 | Records setWalletLocked with its arguments; the answer is arbitrary. |
| Wallet.WalletModel.SetWalletDataEncrypted | src/qt/askpassphrasedialog.cpp:189 | Records setWalletDataEncrypted with its arguments; the answer is arbitrary. |
| Wallet.WalletModel.ChangePassphrase | src/qt/askpassphrasedialog.cpp:260 | Records changePassphrase with its arguments; the answer is arbitrary. |
| Wallet.CWallet.constructor | src/qt/askpassphrasedialog.cpp:227 | Opening a wallet on a file records the opening. |
| Wallet.CWallet.DecryptWalletData | src/qt/askpassphrasedialog.cpp:229 | Records DecryptWalletData with its passphrase; the answer is arbitrary. |
| Wallet.CWallet.Release | src/qt/askpassphrasedialog.cpp:234 | Deleting the wallet records the release, and nothing more may be done with it. |
| AskPassphrase.AskPassphraseDialog.SetMintingChecked | src/qt/askpassphrasedialog.cpp:164 | The user's checkbox state, which UnlockMinting copies into the mint-only flag. |

## Left out

- Caps Lock detection (`event`, `eventFilter`) is not modelled. It depends on Qt key events and on Unicode case classification of `QChar`.
- Widget presentation is not modelled: message-box wording, window titles, labels, `setMaxLength` (`MAX_PASSPHRASE_SIZE`) and the dialog's form file. The model records only message severities, field visibility and the OK button's enabled state. Visibility of the minting checkbox outside UnlockMinting comes from the form file, so the model simply starts it hidden and unchecked.
- `QApplication::quit()` is not a real exit here. It is the outcome's `quitRequested` flag.
- Wallet internals are not modelled. The file I/O and cryptography behind `WalletModel` and `CWallet` are opaque, and every such operation returns an arbitrary bool.
- String conversion and secure memory are not modelled. The `QString` to `std::string` to `SecureString` conversion, `reserve`, and the `SecureString` allocator's locking and zeroing depend on encodings and libraries outside this file. Passphrases are plain strings copied into local variables. The `assign(...c_str())` conversion cuts a passphrase off at an embedded NUL character, and the model has no such cut. Two consequences follow. First, a text that starts with NUL enables OK but reaches `accept` as empty, so `AcceptableSubmitHasEffect` holds only for passphrases without NUL characters. Second, the passphrase comparisons in `accept` compare the cut strings, so "a\0b" and "a\0c" compare equal there, and ChangePass or Encrypt would go ahead with "a". The model compares the whole strings and reports a mismatch. Separately, `QString::size()` counts UTF-16 code units, while `Wiped` keeps the number of characters of the model's strings.
- The blocking, modal nature of `QMessageBox::question` is not modelled. The answer is an input to `Accept`.
- The global `fWalletUnlockMintOnly` is not modelled as shared state. Only the value written is reported.
- Deleting the Qt form in the destructor is not modelled. Only the field wipe is.
