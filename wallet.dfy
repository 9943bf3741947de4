/** The wallet collaborators the passphrase dialog calls.
    Their internals (key derivation, file I/O, cryptography) are not part of this model:
    every operation that answers with a bool answers with an arbitrary one, and every
    operation leaves a record of itself, with its arguments, in the object's call log. */
module Wallet {

  /** One operation performed on a wallet, with its arguments. */
  datatype WalletOp =
    | SetWalletEncrypted(encrypt: bool, passphrase: string)
    | SetWalletLocked(lock: bool, passphrase: string)
    | SetWalletDataEncrypted(encrypt: bool, passphrase: string)
    | ChangePassphrase(oldPassphrase: string, newPassphrase: string)
    | OpenWallet(file: string)          // `new CWallet(file)`
    | DecryptWalletData(passphrase: string)
    | ReleaseWallet                     // `delete wallet`
  {
    /** An operation of the long-lived wallet model (as opposed to a transient CWallet). */
    predicate OnModel() {
      SetWalletEncrypted? || SetWalletLocked? || SetWalletDataEncrypted? || ChangePassphrase?
    }

    /** An operation whose bool answer the caller inspects. */
    predicate IsQuery() {
      !OpenWallet? && !ReleaseWallet?
    }
  }

  /** The queries of a call log: the operations in it whose answer the caller inspects. */
  function Queries(calls: seq<WalletOp>): (r: seq<WalletOp>)
    ensures |r| <= |calls|
    ensures forall op :: op in r <==> op in calls && op.IsQuery()
  {
    if calls == [] then []
    else (if calls[0].IsQuery() then [calls[0]] else []) + Queries(calls[1..])
  }

  /** The wallet model the dialog is attached to (`WalletModel`). */
  class WalletModel {
    /** Every operation performed on this model, oldest first. */
    var log: seq<WalletOp>
    /** The answers this model gave, one per operation, oldest first. */
    ghost var replies: seq<bool>

    constructor ()
      ensures log == [] && replies == []
    {
      log := [];
      replies := [];
    }

    method SetWalletEncrypted(encrypt: bool, passphrase: string) returns (ok: bool)
      modifies this
      ensures log == old(log) + [WalletOp.SetWalletEncrypted(encrypt, passphrase)]
      ensures replies == old(replies) + [ok]
    {
      ok :| true;
      replies := replies + [ok];
      log := log + [WalletOp.SetWalletEncrypted(encrypt, passphrase)];
    }

    method SetWalletLocked(lock: bool, passphrase: string) returns (ok: bool)
      modifies this
      ensures log == old(log) + [WalletOp.SetWalletLocked(lock, passphrase)]
      ensures replies == old(replies) + [ok]
    {
      ok :| true;
      replies := replies + [ok];
      log := log + [WalletOp.SetWalletLocked(lock, passphrase)];
    }

    method SetWalletDataEncrypted(encrypt: bool, passphrase: string) returns (ok: bool)
      modifies this
      ensures log == old(log) + [WalletOp.SetWalletDataEncrypted(encrypt, passphrase)]
      ensures replies == old(replies) + [ok]
    {
      ok :| true;
      replies := replies + [ok];
      log := log + [WalletOp.SetWalletDataEncrypted(encrypt, passphrase)];
    }

    method ChangePassphrase(oldPassphrase: string, newPassphrase: string) returns (ok: bool)
      modifies this
      ensures log == old(log) + [WalletOp.ChangePassphrase(oldPassphrase, newPassphrase)]
      ensures replies == old(replies) + [ok]
    {
      ok :| true;
      replies := replies + [ok];
      log := log + [WalletOp.ChangePassphrase(oldPassphrase, newPassphrase)];
    }
  }

  /** A wallet opened directly on a wallet file (`CWallet`), used only transiently. */
  class CWallet {
    const file: string
    /** Every operation on this wallet, from its opening on. */
    var log: seq<WalletOp>
    /** The answers this wallet gave to its queries, oldest first. */
    ghost var replies: seq<bool>
    var released: bool

    constructor (file: string)
      ensures this.file == file && log == [OpenWallet(file)] && replies == [] && !released
    {
      this.file := file;
      log := [OpenWallet(file)];
      replies := [];
      released := false;
    }

    method DecryptWalletData(passphrase: string) returns (ok: bool)
      requires !released
      modifies this
      ensures log == old(log) + [WalletOp.DecryptWalletData(passphrase)] && !released
      ensures replies == old(replies) + [ok]
    {
      ok :| true;
      replies := replies + [ok];
      log := log + [WalletOp.DecryptWalletData(passphrase)];
    }

    /** `delete wallet`: no further operation may be performed on it. */
    method Release()
      requires !released
      modifies this
      ensures log == old(log) + [ReleaseWallet] && replies == old(replies) && released
    {
      log := log + [ReleaseWallet];
      released := true;
    }
  }
}
