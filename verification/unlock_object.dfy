/** The envelope as an object updated in place (unlock-key, lib.rs). */
module UnlockObject {
  import opened Common
  import E = Envelopes

  class Envelope {
    const account: E.Account
    var stale: bool
    var ct: E.Box
    var master: E.PasswordWrap
    var pin: Option<E.PasswordWrap>
    var fingerprint: Option<E.KeyBytes>
    var fido: seq<E.FidoWrap>

    ghost function View(): E.Envelope
      reads this
    {
      E.Envelope(E.VERSION, account, stale, ct, master, pin, fingerprint, fido)
    }

    /** A new envelope under a fresh data key, for inputs within the limits. */
    constructor (account: E.Account, password: Bytes, kdf: E.Kdf, key: E.KeyBytes, dek: E.KeyBytes)
      requires E.Create(account, password, kdf, key, dek).Ok?
      ensures View() == E.Create(account, password, kdf, key, dek).value
    {
      this.account := account;
      stale := false;
      ct := E.Seal(E.Raw(dek), password, E.CtAad(account));
      master := E.Wrapped(account, "master", kdf, key, dek);
      pin, fingerprint, fido := None, None, [];
    }

    static method Create(account: E.Account, password: Bytes, kdf: E.Kdf, key: E.KeyBytes, dek: E.KeyBytes)
      returns (r: Result<Envelope, E.Error>)
      ensures r.Ok? <==> E.Create(account, password, kdf, key, dek).Ok?
      ensures r.Ok? ==> fresh(r.value) && r.value.View() == E.Create(account, password, kdf, key, dek).value
      ensures r.Err? ==> r.error == E.Create(account, password, kdf, key, dek).error
    {
      hide E.AccountOk, E.KdfCheck, E.CtAad, E.WrapAad;
      if !E.AccountOk(account) {
        return Err(E.Policy);
      }
      if E.KdfCheck(kdf).Some? {
        return Err(E.KdfCheck(kdf).value);
      }
      if !E.PasswordOk(password) {
        return Err(E.Policy);
      }
      var envelope := new Envelope(account, password, kdf, key, dek);
      return Ok(envelope);
    }

    /** Finds a credential. */
    method Position(cred: string) returns (i: nat)
      ensures i == E.Position(fido, cred)
    {
      i := 0;
      while i < |fido|
        invariant i <= |fido| && E.Position(fido, cred) == i + E.Position(fido[i..], cred)
      {
        assert fido[i..][1..] == fido[i + 1..];
        if fido[i].cred == cred {
          return;
        }
        i := i + 1;
      }
    }

    method DataKey(via: E.Via) returns (r: Result<E.KeyBytes, E.Error>)
      ensures r == E.DataKey(View(), via)
    {
      hide E.WrapAad, E.FidoAad, E.Position;
      match via
      case Master(key) =>
        r := E.KeyFrom(E.Unseal(E.Kek(key, "master"), master.box, E.WrapAad(account, "master", master.kdf)));
      case Pin(key) =>
        if pin.None? {
          return Err(E.Missing);
        }
        r := E.KeyFrom(E.Unseal(E.Kek(key, "pin"), pin.value.box, E.WrapAad(account, "pin", pin.value.kdf)));
      case Fingerprint =>
        if fingerprint.None? {
          return Err(E.Missing);
        }
        r := Ok(fingerprint.value);
      case Fido(cred, key) =>
        var i := Position(cred);
        if i == |fido| {
          return Err(E.Missing);
        }
        var w := fido[i];
        r := E.KeyFrom(E.Unseal(E.Kek(key, "fido"), w.box, E.FidoAad(account, w.cred, w.rp, w.salt)));
    }

    method Open(via: E.Via) returns (r: Result<Bytes, E.Error>)
      ensures r == E.Open(View(), via)
    {
      hide E.DataKey;
      var dek := DataKey(via);
      if dek.Err? {
        return Err(dek.error);
      }
      r := E.Unseal(E.Raw(dek.value), ct, E.CtAad(account));
    }

    method AddPin(auth: E.Via, kdf: E.Kdf, key: E.KeyBytes) returns (error: Option<E.Error>)
      modifies this`pin
      ensures (View(), error) == E.Apply(old(View()), E.AddPin(auth, kdf, key))
    {
      hide E.DataKey, E.WrapAad, E.KdfCheck;
      if E.KdfCheck(kdf).Some? {
        return E.KdfCheck(kdf);
      }
      if kdf.m < E.PIN_ARGON2_MIN_MEMORY_KIB || kdf.t < E.PIN_ARGON2_MIN_ITERATIONS {
        return Some(E.Policy);
      }
      var dek := DataKey(auth);
      if dek.Err? {
        return Some(dek.error);
      }
      pin := Some(E.Wrapped(account, "pin", kdf, key, dek.value));
      return None;
    }

    method AddFingerprint(auth: E.Via) returns (error: Option<E.Error>)
      modifies this`fingerprint
      ensures (View(), error) == E.Apply(old(View()), E.AddFingerprint(auth))
    {
      hide E.DataKey;
      var dek := DataKey(auth);
      if dek.Err? {
        return Some(dek.error);
      }
      fingerprint := Some(dek.value);
      return None;
    }

    method AddFido(auth: E.Via, cred: string, rp: string, salt: string,
                   hmac: E.KeyBytes) returns (error: Option<E.Error>)
      modifies this`fido
      ensures (View(), error) == E.Apply(old(View()), E.AddFido(auth, cred, rp, salt, hmac))
    {
      hide E.DataKey, E.FidoAad, E.FidoCheck, E.Position;
      if E.FidoCheck(cred, rp, salt).Some? {
        return E.FidoCheck(cred, rp, salt);
      }
      var dek := DataKey(auth);
      if dek.Err? {
        return Some(dek.error);
      }
      var replacing := Position(cred);
      if replacing == |fido| && |fido| >= E.MAX_FIDO_WRAPS {
        return Some(E.Policy);
      }
      var wrap := E.FidoWrapped(account, cred, rp, salt, hmac, dek.value);
      if replacing < |fido| {
        fido := fido[replacing := wrap];
      } else {
        fido := fido + [wrap];
      }
      return None;
    }

    method Remove(way: E.Method) returns (error: Option<E.Error>)
      modifies this
      ensures (View(), error) == E.Apply(old(View()), E.Remove(way))
    {
      hide E.Position;
      error := None;
      match way
      case ThePin =>
        if pin.None? {
          return Some(E.Missing);
        }
        pin := None;
      case TheFingerprint =>
        if fingerprint.None? {
          return Some(E.Missing);
        }
        fingerprint := None;
      case TheFido(cred) =>
        var i := Position(cred);
        if i == |fido| {
          return Some(E.Missing);
        }
        fido := fido[..i] + fido[i + 1..];
    }

    method MarkStale()
      modifies this`stale
      ensures View() == E.Apply(old(View()), E.MarkStale).0
    {
      stale := true;
    }

    method Rotate(auth: E.Via, password: Bytes, kdf: E.Kdf, key: E.KeyBytes) returns (error: Option<E.Error>)
      modifies this
      ensures (View(), error) == E.Apply(old(View()), E.Rotate(auth, password, kdf, key))
    {
      hide E.DataKey, E.WrapAad, E.CtAad, E.KdfCheck;
      if !E.PasswordOk(password) {
        return Some(E.Policy);
      }
      if E.KdfCheck(kdf).Some? {
        return E.KdfCheck(kdf);
      }
      var dek := DataKey(auth);
      if dek.Err? {
        return Some(dek.error);
      }
      ct := E.Seal(E.Raw(dek.value), password, E.CtAad(account));
      master := E.Wrapped(account, "master", kdf, key, dek.value);
      stale := false;
      return None;
    }
  }
}
