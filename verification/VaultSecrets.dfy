/** The secrets and texts a caller hands in are the ones the vault keeps, and serves. */
module VaultSecrets {
  import opened Basics
  import opened Outcomes
  import opened TrimText
  import opened VaultCrypto
  import opened Credentials
  import opened VaultRows

  /** The secret of a request, by the type of the credential. */
  function Given(kind: string, password: string, privateKey: string): string {
    if kind == "password" then password else privateKey
  }

  /** What the bridge is to offer: the password itself, or the key as it is read. */
  predicate Offers(c: Crypto, kind: string, secret: string, passphrase: string, auth: Auth) {
    if kind == "password" then auth == Password(secret)
    else Parse(c, secret, passphrase).Some? && auth == PublicKey(Parse(c, secret, passphrase).value)
  }

  /** The row keeps this secret, to be read with this passphrase, and shows its public key. */
  predicate Keeps(c: Crypto, row: Row, secret: string, passphrase: string) {
    && row.kind in {"password", "ssh_key"}
    && Reads(c, row.secret, secret)
    && (row.kind == "ssh_key" ==>
          && (if passphrase == "" then row.passphrase == []
              else row.passphrase != [] && Reads(c, row.passphrase, passphrase))
          && Parse(c, secret, passphrase).Some? && row.publicKey == Trim(Parse(c, secret, passphrase).value))
    && (row.kind == "password" ==> row.publicKey == "")
  }

  /** Such a row serves that secret to the bridge, under its trimmed username. */
  lemma KeptIsServed(c: Crypto, row: Row, secret: string, passphrase: string)
    requires Keeps(c, row, secret, passphrase)
    ensures Blank(row.username) ==> Authentication(c, row) == Failed(EmptyUsername)
    ensures !Blank(row.username) ==>
              && Authentication(c, row).Done? && Authentication(c, row).value.0 == Trim(row.username)
              && Offers(c, row.kind, secret, passphrase, Authentication(c, row).value.1)
  {
    hide Trim, Blank, Decrypt, Parse;
    TrimBlank(row.username);
  }

  // Create

  lemma PreparedIsGiven(c: Crypto, kind: string, password: string, privateKey: string, passphrase: string)
    requires PrepareSecret(c, kind, password, privateKey, passphrase, true).Done?
    ensures kind in {"password", "ssh_key"}
    ensures var (plain, shown) := PrepareSecret(c, kind, password, privateKey, passphrase, true).value;
            && plain == Given(kind, password, privateKey) && plain != ""
            && (kind == "password" ==> shown == "")
            && (kind == "ssh_key" ==>
                  Parse(c, privateKey, passphrase).Some? && shown == Trim(Parse(c, privateKey, passphrase).value))
  {
    hide Trim, Parse;
  }

  lemma CreatedKeeps(c: Crypto, req: CreateRequest, e: Entropy)
    requires Sound(c) && NewRow(c, req, e).Done?
    ensures var row := NewRow(c, req, e).value;
            Keeps(c, row, Given(row.kind, req.password, req.privateKey), req.passphrase)
  {
    hide Trim, Encrypt, Decrypt, Parse, NormalizeBecome, PrepareSecret, Sound;
    var row := NewRow(c, req, e).value;
    PreparedIsGiven(c, row.kind, req.password, req.privateKey, req.passphrase);
    EncryptedReads(c, e.secret, Given(row.kind, req.password, req.privateKey));
    EncryptedReads(c, e.passphrase, req.passphrase);
  }

  /** From the request to the bridge: a created credential serves the secret it was created with. */
  lemma CreatedServes(c: Crypto, req: CreateRequest, e: Entropy)
    requires Sound(c) && NewRow(c, req, e).Done? && !Blank(req.username)
    ensures var a := Authentication(c, NewRow(c, req, e).value);
            && a.Done? && a.value.0 == Trim(req.username)
            && Offers(c, Trim(req.kind), Given(Trim(req.kind), req.password, req.privateKey), req.passphrase, a.value.1)
  {
    hide Keeps, Authentication, Trim, Blank, Sound, Encrypt, NormalizeBecome, PrepareSecret;
    var row := NewRow(c, req, e).value;
    CreatedKeeps(c, req, e);
    KeptIsServed(c, row, Given(row.kind, req.password, req.privateKey), req.passphrase);
    TrimBlank(req.username);
    TrimBlank(Trim(req.username));
  }

  /** The rest of a created row: its texts trimmed, and how to become another user. */
  lemma CreatedFields(c: Crypto, req: CreateRequest, e: Entropy)
    requires Sound(c) && NewRow(c, req, e).Done?
    ensures var row := NewRow(c, req, e).value;
            && row.name == Trim(req.name) && row.username == Trim(req.username) && row.kind == Trim(req.kind)
            && row.becomeMethod == (if Blank(req.becomeMethod) then "none" else Trim(req.becomeMethod))
            && (row.becomeMethod == "none" ==> row.becomeUser == "" && row.becomeSecret == [])
            && (row.becomeMethod != "none" ==>
                  row.becomeUser == if Blank(req.becomeUser) then "root" else Trim(req.becomeUser))
            && (row.becomeMethod != "none" ==>
                  if Blank(req.becomeSecret) then row.becomeSecret == []
                  else Reads(c, row.becomeSecret, req.becomeSecret))
  {
    hide Trim, Blank, Encrypt, Decrypt, Parse, NormalizeBecome, PrepareSecret, Sound;
    NormalizedBecome(req.becomeMethod, req.becomeUser);
    TrimBlank(req.becomeSecret);
    EncryptedReads(c, e.become, req.becomeSecret);
  }

  /** Which error a failing create reports, the earlier cause first. */
  lemma CreateFails(c: Crypto, req: CreateRequest, e: Entropy)
    ensures var r := NewRow(c, req, e);
            var kind := Trim(req.kind);
            var given := Given(kind, req.password, req.privateKey);
            && (r == Failed(PassphraseNotSsh) <==> req.passphrase != "" && kind != "ssh_key")
            && (r == Failed(InvalidType) <==> req.passphrase == "" && kind !in {"password", "ssh_key"})
            && (r == Failed(MissingSecret) <==>
                  given == "" && (kind == "ssh_key" || (kind == "password" && req.passphrase == "")))
            && (r == Failed(InvalidKey) <==>
                  kind == "ssh_key" && given != "" && Parse(c, given, req.passphrase).None?)
  {
    hide Trim, Parse;
  }

  // Update

  /** The passphrase in force for an update, as plain text. */
  predicate InForce(c: Crypto, row: Row, req: UpdateRequest, passphrase: string) {
    if req.passphrase.Some? then passphrase == req.passphrase.value
    else if row.passphrase == [] then passphrase == ""
    else Reads(c, row.passphrase, passphrase)
  }

  lemma SecretChanges(c: Crypto, row: Row, req: UpdateRequest, e: Entropy, p: string)
    requires Sound(c) && SecretInv(c, row) && SecretChanged(c, row, req, e).Done? && InForce(c, row, req, p)
    ensures var after := SecretChanged(c, row, req, e).value;
            && (ReplacesSecret(req) ==> Keeps(c, after, Given(row.kind, req.password, req.privateKey), p))
            && (!ReplacesSecret(req) ==> after.secret == row.secret && after.publicKey == row.publicKey)
            && (req.passphrase.None? ==> after.passphrase == row.passphrase)
            && (req.passphrase == Some("") ==> after.passphrase == [])
            && (req.passphrase.Some? && req.passphrase.value != "" ==> Reads(c, after.passphrase, req.passphrase.value))
  {
    hide Trim, Encrypt, Decrypt, Parse, PrepareSecret, KeyShown, Sound;
    if ReplacesSecret(req) {
      PreparedIsGiven(c, row.kind, req.password, req.privateKey, p);
      EncryptedReads(c, e.secret, Given(row.kind, req.password, req.privateKey));
    }
    if req.passphrase.Some? {
      EncryptedReads(c, e.passphrase, req.passphrase.value);
    }
  }

  /** After an update: a new secret is the one kept; otherwise the secret read back is the one from before. */
  lemma UpdatedKeeps(c: Crypto, row: Row, req: UpdateRequest, e: Entropy, p: string)
    requires Sound(c) && RowInv(c, row) && UpdatedRow(c, row, req, e).Done? && InForce(c, row, req, p)
    ensures var after := UpdatedRow(c, row, req, e).value;
            && (ReplacesSecret(req) ==> Keeps(c, after, Given(row.kind, req.password, req.privateKey), p))
            && (!ReplacesSecret(req) ==>
                  Decrypt(c, after.secret) == Decrypt(c, row.secret) && after.publicKey == row.publicKey)
            && (req.passphrase.None? ==> after.passphrase == row.passphrase)
            && (req.passphrase == Some("") ==> after.passphrase == [])
            && (req.passphrase.Some? && req.passphrase.value != "" ==> Reads(c, after.passphrase, req.passphrase.value))
  {
    hide SecretChanged, BecomeChanged, Trim, Parse, Decrypt, Sound, KeyShown;
    var named := Named(row, req);
    NamedKeeps(c, row, req);
    SecretChanges(c, named, req, e, p);
    var changed := SecretChanged(c, named, req, e).value;
    SecretChangeFrame(c, named, req, e);
    BecomeChangeFrame(c, changed, req, e);
  }

  lemma NamedKeeps(c: Crypto, row: Row, req: UpdateRequest)
    requires SecretInv(c, row)
    ensures SecretInv(c, Named(row, req))
  {
    hide Trim, Parse, Decrypt;
    assert KeyShown(c, row) ==> KeyShown(c, Named(row, req));
  }

  /** From the request to the bridge: an update that carries a new secret makes the bridge offer it. */
  lemma UpdatedServes(c: Crypto, row: Row, req: UpdateRequest, e: Entropy, p: string)
    requires Sound(c) && RowInv(c, row) && UpdatedRow(c, row, req, e).Done? && InForce(c, row, req, p)
    requires ReplacesSecret(req)
    ensures var after := UpdatedRow(c, row, req, e).value;
            var a := Authentication(c, after);
            !Blank(after.username) ==>
              && a.Done? && a.value.0 == Trim(after.username)
              && Offers(c, row.kind, Given(row.kind, req.password, req.privateKey), p, a.value.1)
  {
    hide Keeps, Authentication, UpdatedRow, InForce, RowInv, Trim, Blank, Sound, Offers;
    UpdatedKeeps(c, row, req, e, p);
    UpdateKeeps(c, row, req, e);
    KeptIsServed(c, UpdatedRow(c, row, req, e).value, Given(row.kind, req.password, req.privateKey), p);
  }

  /** There is a passphrase in force for every row in order. */
  lemma SomeInForce(c: Crypto, row: Row, req: UpdateRequest) returns (p: string)
    requires RowInv(c, row)
    ensures InForce(c, row, req, p)
  {
    hide Trim, Parse, Decrypt, KeyShown;
    if req.passphrase.Some? {
      p := req.passphrase.value;
    } else if row.passphrase == [] {
      p := "";
    } else {
      p :| Reads(c, row.passphrase, p) && p != "";
    }
  }

  /** The names after an update: the new one trimmed, unless it is blank. */
  lemma UpdatedNames(c: Crypto, row: Row, req: UpdateRequest, e: Entropy)
    requires UpdatedRow(c, row, req, e).Done?
    ensures var after := UpdatedRow(c, row, req, e).value;
            && after.name == (if Blank(req.name) then row.name else Trim(req.name))
            && after.username == (if Blank(req.username) then row.username else Trim(req.username))
            && after.kind == row.kind
  {
    hide SecretChanged, BecomeChanged, Trim, Blank;
    TrimBlank(req.name);
    TrimBlank(req.username);
    var named := Named(row, req);
    SecretChangeFrame(c, named, req, e);
    BecomeChangeFrame(c, SecretChanged(c, named, req, e).value, req, e);
  }

  /** How to become another user after an update. */
  lemma UpdatedBecome(c: Crypto, row: Row, req: UpdateRequest, e: Entropy)
    requires Sound(c) && BecomeInv(row) && BecomeChanged(c, row, req, e).Done?
    ensures var after := BecomeChanged(c, row, req, e).value;
            && (req.becomeMethod.None? ==> after.becomeMethod == row.becomeMethod)
            && (req.becomeMethod.Some? ==>
                  after.becomeMethod == if Blank(req.becomeMethod.value) then "none" else Trim(req.becomeMethod.value))
            && (after.becomeMethod == "none" ==> after.becomeUser == "" && after.becomeSecret == [])
            && (after.becomeMethod != "none" && req.becomeUser.Some? ==>
                  after.becomeUser == if Blank(req.becomeUser.value) then "root" else Trim(req.becomeUser.value))
            && (after.becomeMethod != "none" ==>
                  match req.becomeSecret
                  case None => after.becomeSecret == row.becomeSecret
                  case Some(s) => if s == "" then after.becomeSecret == [] else Reads(c, after.becomeSecret, s))
  {
    hide Trim, Blank, Encrypt, Decrypt, NormalizeBecome, Sound;
    NormalizedBecome(Or(req.becomeMethod, row.becomeMethod), Or(req.becomeUser, row.becomeUser));
    KnownMethods(row.becomeMethod);
    if req.becomeSecret.Some? {
      EncryptedReads(c, e.become, req.becomeSecret.value);
    }
  }

  lemma KnownMethods(how: string)
    requires how in {"none", "sudo", "su"}
    ensures Trim(how) == how && !Blank(how)
  {
    assert !IsSpace(how[0]);
  }

  /** The secret of a new request, or the stored key under a new passphrase, is one that can be kept. */
  predicate SecretFits(c: Crypto, row: Row, req: UpdateRequest, p: string) {
    if ReplacesSecret(req) then
      && Given(row.kind, req.password, req.privateKey) != ""
      && (row.kind == "ssh_key" ==> Parse(c, req.privateKey, p).Some?)
    else
      row.kind == "ssh_key" && req.passphrase.Some? && req.passphrase.value != "" ==>
        var key := Decrypt(c, row.secret);
        key.Done? && key.value != "" && Parse(c, key.value, p).Some?
  }

  predicate PassphraseFits(row: Row, req: UpdateRequest) {
    req.passphrase.Some? && req.passphrase.value != "" ==> row.kind == "ssh_key"
  }

  lemma SecretChangeSucceeds(c: Crypto, row: Row, req: UpdateRequest, e: Entropy, p: string)
    requires SecretInv(c, row) && InForce(c, row, req, p)
    ensures SecretChanged(c, row, req, e).Done? <==>
              && SecretFits(c, row, req, p) && PassphraseFits(row, req)
              && (ReplacesSecret(req) ==> e.secret.Some?)
              && (req.passphrase.Some? && req.passphrase.value != "" ==> e.passphrase.Some?)
  {
    hide Trim, Parse, Decrypt, KeyShown;
  }

  lemma BecomeChangeSucceeds(c: Crypto, row: Row, req: UpdateRequest, e: Entropy)
    requires BecomeInv(row)
    ensures BecomeChanged(c, row, req, e).Done? <==>
              && (req.becomeMethod.Some? ==> Trim(req.becomeMethod.value) in {"", "none", "sudo", "su"})
              && (req.becomeSecret.Some? && req.becomeSecret.value != "" && StaysAble(row, req) ==> e.become.Some?)
  {
    hide Trim, NormalizeBecome;
    NormalizedBecome(Or(req.becomeMethod, row.becomeMethod), Or(req.becomeUser, row.becomeUser));
    KnownMethods(row.becomeMethod);
    TrimBlank(Or(req.becomeMethod, row.becomeMethod));
  }

  /** The credential can be used to become another user after the update. */
  predicate StaysAble(row: Row, req: UpdateRequest) {
    Trim(Or(req.becomeMethod, row.becomeMethod)) in {"sudo", "su"}
  }

  /** Exactly the updates that succeed on a row in order. */
  lemma UpdateSucceeds(c: Crypto, row: Row, req: UpdateRequest, e: Entropy, p: string)
    requires Sound(c) && RowInv(c, row) && InForce(c, row, req, p)
    ensures UpdatedRow(c, row, req, e).Done? <==>
              && SecretFits(c, row, req, p) && PassphraseFits(row, req)
              && (req.becomeMethod.Some? ==> Trim(req.becomeMethod.value) in {"", "none", "sudo", "su"})
              && (ReplacesSecret(req) ==> e.secret.Some?)
              && (req.passphrase.Some? && req.passphrase.value != "" ==> e.passphrase.Some?)
              && (req.becomeSecret.Some? && req.becomeSecret.value != "" && StaysAble(row, req) ==> e.become.Some?)
  {
    hide SecretChanged, BecomeChanged, Trim, Parse, Decrypt, Sound, KeyShown;
    var named := Named(row, req);
    NamedKeeps(c, row, req);
    SecretChangeSucceeds(c, named, req, e, p);
    if SecretChanged(c, named, req, e).Done? {
      SecretChangeFrame(c, named, req, e);
      BecomeChangeSucceeds(c, SecretChanged(c, named, req, e).value, req, e);
    }
  }
}
