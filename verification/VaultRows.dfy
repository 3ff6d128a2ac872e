/** What every vault row keeps, and when the SSH bridge can use it. */
module VaultRows {
  import opened Basics
  import opened Outcomes
  import opened TrimText
  import opened VaultCrypto
  import opened Credentials

  predicate Reads(c: Crypto, sealed: seq<byte>, plain: string) {
    Decrypt(c, sealed) == Done(plain)
  }

  /** The public key shown is the one of the stored secret, as read under some passphrase. */
  ghost predicate KeyShown(c: Crypto, row: Row) {
    exists key, passphrase ::
      && Reads(c, row.secret, key) && Parse(c, key, passphrase).Some?
      && row.publicKey == Trim(Parse(c, key, passphrase).value)
  }

  ghost predicate SecretInv(c: Crypto, row: Row) {
    && row.kind in {PASSWORD, SSH_KEY}
    && (row.kind == SSH_KEY ==> KeyShown(c, row))
    && (row.kind == PASSWORD ==>
          row.publicKey == "" && row.passphrase == [] && exists p :: Reads(c, row.secret, p) && p != "")
    && (row.passphrase != [] ==> exists p :: Reads(c, row.passphrase, p) && p != "")
  }

  ghost predicate BecomeInv(row: Row) {
    && row.becomeMethod in {NONE, SUDO, SU}
    && (row.becomeMethod == NONE ==> row.becomeUser == "" && row.becomeSecret == [])
    && (row.becomeMethod != NONE ==> !Blank(row.becomeUser))
  }

  ghost predicate RowInv(c: Crypto, row: Row) {
    SecretInv(c, row) && BecomeInv(row)
  }

  /** The parser of SshAuth accepts the stored secret with the stored passphrase. */
  predicate Usable(c: Crypto, row: Row) {
    var secret := Decrypt(c, row.secret);
    secret.Done? && Credential(c, row, secret.value).Done?
  }

  lemma NormalizedBecome(how: string, user: string)
    ensures var b := NormalizeBecome(how, user);
            && (b.Done? <==> Trim(how) in {"", NONE, SUDO, SU})
            && (b.Done? ==> b.value.0 in {NONE, SUDO, SU})
            && (b.Done? && b.value.0 == NONE ==> b.value.1 == "")
            && (b.Done? && b.value.0 != NONE ==> !Blank(b.value.1))
            && (b.Done? ==> b.value.0 == if Blank(how) then "none" else Trim(how))
            && (b.Done? && b.value.0 != NONE ==> b.value.1 == if Blank(user) then "root" else Trim(user))
            && (b.Failed? ==> b.error == InvalidBecomeMethod)
  {
    hide Trim, Blank;
    TrimBlank(how);
    TrimBlank(user);
    TrimBlank(Trim(user));
    RootNotBlank();
  }

  lemma RootNotBlank()
    ensures !Blank("root")
  {
    assert !IsSpace("root"[0]);
  }

  lemma NewRowKeeps(c: Crypto, req: CreateRequest, e: Entropy)
    requires Sound(c) && NewRow(c, req, e).Done?
    ensures RowInv(c, NewRow(c, req, e).value) && Usable(c, NewRow(c, req, e).value)
  {
    hide Trim, Encrypt, Decrypt, Parse, NormalizeBecome, Blank, Sound;
    var row := NewRow(c, req, e).value;
    NormalizedBecome(req.becomeMethod, req.becomeUser);
    var secret := PrepareSecret(c, row.kind, req.password, req.privateKey, req.passphrase, true).value.0;
    EncryptedReads(c, e.secret, secret);
    assert Reads(c, row.secret, secret);
    if req.passphrase != "" {
      EncryptedReads(c, e.passphrase, req.passphrase);
      assert Reads(c, row.passphrase, req.passphrase);
    }
  }

  lemma EncryptedReads(c: Crypto, random: Option<Nonce>, plain: string)
    requires Sound(c)
    ensures Encrypt(c, random, plain).Done? <==> random.Some?
    ensures random.Some? ==> Encrypt(c, random, plain).value != [] && Reads(c, Encrypt(c, random, plain).value, plain)
  {
    if random.Some? {
      DecryptEncrypt(c, random, plain);
    }
  }

  /** Exactly the requests that Create can serve. */
  lemma CreateSucceeds(c: Crypto, req: CreateRequest, e: Entropy)
    ensures NewRow(c, req, e).Done? <==>
              && (Trim(req.kind) == PASSWORD ==> req.password != "" && req.passphrase == "")
              && (Trim(req.kind) != PASSWORD ==>
                    Trim(req.kind) == SSH_KEY && req.privateKey != "" && Parse(c, req.privateKey, req.passphrase).Some?)
              && Trim(req.becomeMethod) in {"", NONE, SUDO, SU}
              && e.secret.Some? && (req.passphrase != "" ==> e.passphrase.Some?)
              && (Trim(req.becomeMethod) in {SUDO, SU} && !Blank(req.becomeSecret) ==> e.become.Some?)
  {
    hide Trim, Parse, Blank;
    TrimBlank(req.becomeSecret);
  }

  // Update

  lemma SecretChangeKeeps(c: Crypto, row: Row, req: UpdateRequest, e: Entropy)
    requires Sound(c) && SecretInv(c, row) && SecretChanged(c, row, req, e).Done?
    ensures SecretInv(c, SecretChanged(c, row, req, e).value)
  {
    hide Trim, Encrypt, Decrypt, Parse, Sound;
    var after := SecretChanged(c, row, req, e).value;
    var inForce := PassphraseInForce(c, row, req).value;
    if ReplacesSecret(req) {
      var secret := PrepareSecret(c, row.kind, req.password, req.privateKey, inForce, true).value.0;
      EncryptedReads(c, e.secret, secret);
      assert Reads(c, after.secret, secret);
    } else if row.kind == SSH_KEY {
      assert after.secret == row.secret && after.publicKey == row.publicKey;
      assert KeyShown(c, row) ==> KeyShown(c, after);
    }
    if req.passphrase.Some? && req.passphrase.value != "" {
      EncryptedReads(c, e.passphrase, req.passphrase.value);
      assert Reads(c, after.passphrase, req.passphrase.value);
    }
  }

  lemma BecomeChangeKeeps(c: Crypto, row: Row, req: UpdateRequest, e: Entropy)
    requires BecomeInv(row) && BecomeChanged(c, row, req, e).Done?
    ensures BecomeInv(BecomeChanged(c, row, req, e).value)
  {
    hide Trim, Encrypt, NormalizeBecome, Blank;
    NormalizedBecome(Or(req.becomeMethod, row.becomeMethod), Or(req.becomeUser, row.becomeUser));
  }

  /** A successful update keeps every clause of the row, and its type. */
  lemma UpdateKeeps(c: Crypto, row: Row, req: UpdateRequest, e: Entropy)
    requires Sound(c) && RowInv(c, row) && UpdatedRow(c, row, req, e).Done?
    ensures RowInv(c, UpdatedRow(c, row, req, e).value) && UpdatedRow(c, row, req, e).value.kind == row.kind
  {
    hide SecretChanged, BecomeChanged, Trim, Blank, Parse, Decrypt, Sound;
    var named := Named(row, req);
    var changed := SecretChanged(c, named, req, e).value;
    assert RowInv(c, named) by {
      assert KeyShown(c, row) ==> KeyShown(c, named);
    }
    SecretChangeKeeps(c, named, req, e);
    SecretChangeFrame(c, named, req, e);
    BecomeChangeKeeps(c, changed, req, e);
    BecomeChangeFrame(c, changed, req, e);
    var after := UpdatedRow(c, row, req, e).value;
    assert KeyShown(c, changed) ==> KeyShown(c, after);
  }

  function Named(row: Row, req: UpdateRequest): Row {
    row.(name := if Trim(req.name) != "" then Trim(req.name) else row.name,
         username := if Trim(req.username) != "" then Trim(req.username) else row.username)
  }

  lemma SecretChangeFrame(c: Crypto, row: Row, req: UpdateRequest, e: Entropy)
    requires SecretChanged(c, row, req, e).Done?
    ensures var after := SecretChanged(c, row, req, e).value;
            after == row.(secret := after.secret, publicKey := after.publicKey, passphrase := after.passphrase)
  {
    hide SecretAfter, PassphraseAfter, PassphraseInForce;
  }

  lemma BecomeChangeFrame(c: Crypto, row: Row, req: UpdateRequest, e: Entropy)
    requires BecomeChanged(c, row, req, e).Done?
    ensures var after := BecomeChanged(c, row, req, e).value;
            after == row.(becomeMethod := after.becomeMethod, becomeUser := after.becomeUser,
                          becomeSecret := after.becomeSecret)
  {
    hide BecomeAfter, BecomeSecretAfter;
  }

  /** The one update that can leave a key nobody can read: the passphrase goes, the key stays. */
  predicate Clears(row: Row, req: UpdateRequest) {
    row.kind == SSH_KEY && req.passphrase == Some("") && !ReplacesSecret(req)
  }

  lemma SecretChangeUsable(c: Crypto, row: Row, req: UpdateRequest, e: Entropy)
    requires Sound(c) && SecretInv(c, row) && SecretChanged(c, row, req, e).Done?
    ensures Usable(c, SecretChanged(c, row, req, e).value) <==>
              if Clears(row, req) then c.parsePlain(Decrypt(c, row.secret).value).Some?
              else ReplacesSecret(req) || (req.passphrase.Some? && row.kind == SSH_KEY) || Usable(c, row)
  {
    hide Trim, Encrypt, Decrypt, Parse, Sound;
    var after := SecretChanged(c, row, req, e).value;
    var inForce := PassphraseInForce(c, row, req).value;
    if ReplacesSecret(req) {
      var secret := PrepareSecret(c, row.kind, req.password, req.privateKey, inForce, true).value.0;
      EncryptedReads(c, e.secret, secret);
      assert Reads(c, after.secret, secret);
    }
    if req.passphrase.Some? && req.passphrase.value != "" {
      EncryptedReads(c, e.passphrase, req.passphrase.value);
      assert Reads(c, after.passphrase, req.passphrase.value);
    }
    PlainParse(c, Decrypt(c, row.secret).value);
  }

  lemma PlainParse(c: Crypto, key: string)
    ensures Parse(c, key, "") == c.parsePlain(key)
  {}

  /**
    After a successful update the row is usable exactly if: the parser takes the stored key without a passphrase,
    where the passphrase was cleared and the key kept; always, where secret or passphrase are new; as before otherwise.
   */
  lemma UpdateUsable(c: Crypto, row: Row, req: UpdateRequest, e: Entropy)
    requires Sound(c) && RowInv(c, row) && UpdatedRow(c, row, req, e).Done?
    ensures Usable(c, UpdatedRow(c, row, req, e).value) <==>
              if Clears(row, req) then c.parsePlain(Decrypt(c, row.secret).value).Some?
              else ReplacesSecret(req) || (req.passphrase.Some? && row.kind == SSH_KEY) || Usable(c, row)
  {
    hide SecretChanged, BecomeChanged, Trim, Blank, Parse, Decrypt, Sound;
    var named := Named(row, req);
    var changed := SecretChanged(c, named, req, e).value;
    assert SecretInv(c, named) by {
      assert KeyShown(c, row) ==> KeyShown(c, named);
    }
    SecretChangeUsable(c, named, req, e);
    BecomeChangeFrame(c, changed, req, e);
  }

  // Use

  /** SshAuth serves exactly the usable rows whose username is not blank, with the stored secret. */
  lemma AuthExactly(c: Crypto, row: Row)
    requires Sound(c) && RowInv(c, row)
    ensures Authentication(c, row).Done? <==> Usable(c, row) && !Blank(row.username)
    ensures Usable(c, row) && Blank(row.username) ==> Authentication(c, row) == Failed(EmptyUsername)
    ensures !Usable(c, row) ==> Authentication(c, row) == Failed(InvalidKey)
    ensures Authentication(c, row).Done? ==> Authentication(c, row).value.0 == Trim(row.username)
  {
    hide Trim, Decrypt, Parse, Blank, Sound;
    TrimBlank(row.username);
    if row.kind == SSH_KEY {
      var key, passphrase :| Reads(c, row.secret, key) && Parse(c, key, passphrase).Some?
                             && row.publicKey == Trim(Parse(c, key, passphrase).value);
    }
  }

  /** The bridge offers the key the vault shows, if a key reads the same under every passphrase it accepts. */
  lemma SignerIsShownKey(c: Crypto, row: Row)
    requires Sound(c) && Coherent(c) && RowInv(c, row) && Authentication(c, row).Done?
    ensures row.kind == SSH_KEY <==> Authentication(c, row).value.1.PublicKey?
    ensures row.kind == SSH_KEY ==> Trim(Authentication(c, row).value.1.line) == row.publicKey
  {
    hide Trim, Decrypt, Parse, Sound;
    if row.kind == SSH_KEY {
      var key, passphrase :| Reads(c, row.secret, key) && Parse(c, key, passphrase).Some?
                             && row.publicKey == Trim(Parse(c, key, passphrase).value);
    }
  }
}
