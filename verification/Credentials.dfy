/** AES-GCM and SSH key parsing, seen from the vault. */
module VaultCrypto {
  import opened Basics
  import opened Outcomes

  type Nonce = s: seq<byte> | |s| == 12 witness [0, 0, 0, 0, 0, 0, 0, 0, 0, 0, 0, 0]

  datatype Error =
    | NotFound | InvalidType | MissingSecret | InvalidKey | InvalidBecomeMethod | PassphraseNotSsh
    | NoEntropy | Undecryptable | EmptyUsername | StorageFailed

  /** `parsePlain` and `parseLocked` give the authorized-keys line of the signer, if the key is accepted. */
  datatype Crypto = Crypto(
    seal: (Nonce, string) -> seq<byte>, open: (Nonce, seq<byte>) -> Option<string>,
    parsePlain: string -> Option<string>, parseLocked: (string, string) -> Option<string>)

  ghost predicate Sound(c: Crypto) {
    forall n: Nonce, plain: string :: c.open(n, c.seal(n, plain)) == Some(plain)
  }

  /** A key accepted under two passphrases is the same key. */
  ghost predicate Coherent(c: Crypto) {
    forall key, p, q :: Parse(c, key, p).Some? && Parse(c, key, q).Some? ==> Parse(c, key, p) == Parse(c, key, q)
  }

  function Encrypt(c: Crypto, random: Option<Nonce>, plain: string): Outcome<seq<byte>, Error> {
    match random
    case None => Failed(NoEntropy)
    case Some(n) => Done(n + c.seal(n, plain))
  }

  function Decrypt(c: Crypto, sealed: seq<byte>): Outcome<string, Error> {
    if |sealed| < 12 then Failed(Undecryptable)
    else
      match c.open(sealed[..12], sealed[12..])
      case None => Failed(Undecryptable)
      case Some(plain) => Done(plain)
  }

  lemma DecryptEncrypt(c: Crypto, random: Option<Nonce>, plain: string)
    requires Sound(c) && random.Some?
    ensures Encrypt(c, random, plain).Done?
    ensures Encrypt(c, random, plain).value != []
    ensures Decrypt(c, Encrypt(c, random, plain).value) == Done(plain)
  {
    var n := random.value;
    var sealed := n + c.seal(n, plain);
    assert sealed[..12] == n && sealed[12..] == c.seal(n, plain);
  }

  function Parse(c: Crypto, key: string, passphrase: string): Option<string> {
    if passphrase != "" then c.parseLocked(key, passphrase) else c.parsePlain(key)
  }
}

/** The credential vault: creation, update and use of its rows. */
module Credentials {
  import opened Basics
  import opened Outcomes
  import opened TrimText
  import opened VaultCrypto

  const PASSWORD := "password"
  const SSH_KEY := "ssh_key"
  const NONE := "none"
  const SUDO := "sudo"
  const SU := "su"

  /** An empty ciphertext is an absent one. */
  datatype Row = Row(
    name: string, kind: string, username: string, secret: seq<byte>, publicKey: string,
    passphrase: seq<byte>, becomeMethod: string, becomeUser: string, becomeSecret: seq<byte>)

  datatype CreateRequest = CreateRequest(
    name: string, kind: string, username: string, password: string, privateKey: string, passphrase: string,
    becomeMethod: string, becomeUser: string, becomeSecret: string)

  datatype UpdateRequest = UpdateRequest(
    name: string, username: string, password: string, privateKey: string, passphrase: Option<string>,
    becomeMethod: Option<string>, becomeUser: Option<string>, becomeSecret: Option<string>)

  /** What the random source answers to the encryptions of one call. */
  datatype Entropy = Entropy(secret: Option<Nonce>, passphrase: Option<Nonce>, become: Option<Nonce>)

  datatype Auth = Password(password: string) | PublicKey(line: string)

  // Parts of the operations

  function NormalizeBecome(how: string, user: string): Outcome<(string, string), Error> {
    var how := if Trim(how) == "" then NONE else Trim(how);
    if how == NONE then Done((NONE, ""))
    else if how == SUDO || how == SU then Done((how, if Trim(user) == "" then "root" else Trim(user)))
    else Failed(InvalidBecomeMethod)
  }

  /** The secret to store and the public key to show. */
  function PrepareSecret(
    c: Crypto, kind: string, password: string, privateKey: string, passphrase: string, required: bool)
    : Outcome<(string, string), Error>
  {
    if kind == PASSWORD then
      if password == "" && required then Failed(MissingSecret) else Done((password, ""))
    else if kind == SSH_KEY then
      if privateKey == "" then (if required then Failed(MissingSecret) else Done(("", "")))
      else
        match Parse(c, privateKey, passphrase)
        case None => Failed(InvalidKey)
        case Some(line) => Done((privateKey, Trim(line)))
    else Failed(InvalidType)
  }

  // Specification of Create and Update

  function NewRow(c: Crypto, req: CreateRequest, e: Entropy): Outcome<Row, Error> {
    var kind := Trim(req.kind);
    if req.passphrase != "" && kind != SSH_KEY then Failed(PassphraseNotSsh)
    else
      var prepared :- PrepareSecret(c, kind, req.password, req.privateKey, req.passphrase, true);
      var secret :- Encrypt(c, e.secret, prepared.0);
      var become :- NormalizeBecome(req.becomeMethod, req.becomeUser);
      var passphrase :- EncryptIf(req.passphrase != "", c, e.passphrase, req.passphrase);
      var becomeSecret :- EncryptIf(become.0 != NONE && Trim(req.becomeSecret) != "", c, e.become, req.becomeSecret);
      Done(Row(Trim(req.name), kind, Trim(req.username), secret, prepared.1, passphrase,
               become.0, become.1, becomeSecret))
  }

  function EncryptIf(wanted: bool, c: Crypto, random: Option<Nonce>, plain: string): Outcome<seq<byte>, Error> {
    if wanted then Encrypt(c, random, plain) else Done([])
  }

  /** The passphrase the new or stored key is to be read with. */
  function PassphraseInForce(c: Crypto, row: Row, req: UpdateRequest): Outcome<string, Error> {
    if req.passphrase.Some? then Done(req.passphrase.value)
    else if row.passphrase != [] then Decrypt(c, row.passphrase)
    else Done("")
  }

  predicate ReplacesSecret(req: UpdateRequest) {
    req.password != "" || req.privateKey != ""
  }

  /** Secret and public key after the update. */
  function SecretAfter(
    c: Crypto, row: Row, req: UpdateRequest, passphrase: string, e: Entropy): Outcome<(seq<byte>, string), Error>
  {
    var newPassphrase := req.passphrase.Some? && req.passphrase.value != "";
    if ReplacesSecret(req) && newPassphrase && row.kind != SSH_KEY then Failed(PassphraseNotSsh)
    else if ReplacesSecret(req) then
      var prepared :- PrepareSecret(c, row.kind, req.password, req.privateKey, passphrase, true);
      var secret :- Encrypt(c, e.secret, prepared.0);
      Done((secret, prepared.1))
    else if newPassphrase && row.kind == SSH_KEY then
      var key :- Decrypt(c, row.secret);
      var _ :- PrepareSecret(c, row.kind, "", key, req.passphrase.value, true);
      Done((row.secret, row.publicKey))
    else Done((row.secret, row.publicKey))
  }

  function PassphraseAfter(c: Crypto, row: Row, req: UpdateRequest, e: Entropy): Outcome<seq<byte>, Error> {
    match req.passphrase
    case None => Done(row.passphrase)
    case Some(p) =>
      if row.kind != SSH_KEY && p != "" then Failed(PassphraseNotSsh)
      else if p == "" then Done([])
      else Encrypt(c, e.passphrase, p)
  }

  function Or(given: Option<string>, current: string): string {
    if given.Some? then given.value else current
  }

  function BecomeAfter(row: Row, req: UpdateRequest): Outcome<(string, string), Error> {
    if req.becomeMethod.None? && req.becomeUser.None? then Done((row.becomeMethod, row.becomeUser))
    else NormalizeBecome(Or(req.becomeMethod, row.becomeMethod), Or(req.becomeUser, row.becomeUser))
  }

  function BecomeSecretAfter(
    c: Crypto, row: Row, req: UpdateRequest, how: string, e: Entropy): Outcome<seq<byte>, Error>
  {
    var kept := if (req.becomeMethod.Some? || req.becomeUser.Some?) && how == NONE then [] else row.becomeSecret;
    match req.becomeSecret
    case None => Done(kept)
    case Some(s) => if how == NONE || s == "" then Done([]) else Encrypt(c, e.become, s)
  }

  function SecretChanged(c: Crypto, row: Row, req: UpdateRequest, e: Entropy): Outcome<Row, Error> {
    var inForce :- PassphraseInForce(c, row, req);
    var secret :- SecretAfter(c, row, req, inForce, e);
    var passphrase :- PassphraseAfter(c, row, req, e);
    Done(row.(secret := secret.0, publicKey := secret.1, passphrase := passphrase))
  }

  function BecomeChanged(c: Crypto, row: Row, req: UpdateRequest, e: Entropy): Outcome<Row, Error> {
    var become :- BecomeAfter(row, req);
    var becomeSecret :- BecomeSecretAfter(c, row, req, become.0, e);
    Done(row.(becomeMethod := become.0, becomeUser := become.1, becomeSecret := becomeSecret))
  }

  function UpdatedRow(c: Crypto, row: Row, req: UpdateRequest, e: Entropy): Outcome<Row, Error> {
    var named := row.(name := if Trim(req.name) != "" then Trim(req.name) else row.name,
                      username := if Trim(req.username) != "" then Trim(req.username) else row.username);
    var changed :- SecretChanged(c, named, req, e);
    BecomeChanged(c, changed, req, e)
  }

  function Authentication(c: Crypto, row: Row): Outcome<(string, Auth), Error> {
    var secret :- Decrypt(c, row.secret);
    var auth :- Credential(c, row, secret);
    if Trim(row.username) == "" then Failed(EmptyUsername) else Done((Trim(row.username), auth))
  }

  function Credential(c: Crypto, row: Row, secret: string): Outcome<Auth, Error> {
    if row.kind == PASSWORD then Done(Password(secret))
    else if row.kind == SSH_KEY then
      var passphrase :- if row.passphrase == [] then Done("") else Decrypt(c, row.passphrase);
      var line := Parse(c, secret, passphrase);
      if line.None? then Failed(InvalidKey) else Done(PublicKey(line.value))
    else Failed(InvalidType)
  }

  // The service

  class Vault {
    const crypto: Crypto
    var rows: map<string, Row>

    constructor (c: Crypto)
      ensures crypto == c && rows == map[]
    {
      crypto := c;
      rows := map[];
    }

    /** `writes` tells whether the database takes the new row. */
    method Create(id: string, req: CreateRequest, e: Entropy, writes: bool) returns (r: Outcome<Row, Error>)
      modifies this`rows
      ensures r == (if NewRow(crypto, req, e).Failed? then NewRow(crypto, req, e)
                    else if writes && id !in old(rows) then NewRow(crypto, req, e) else Failed(StorageFailed))
      ensures rows == if r.Done? then old(rows)[id := r.value] else old(rows)
    {
      var kind := Trim(req.kind);
      if req.passphrase != "" && kind != SSH_KEY {
        return Failed(PassphraseNotSsh);
      }
      var prepared :- PrepareSecret(crypto, kind, req.password, req.privateKey, req.passphrase, true);
      var ciphertext :- Encrypt(crypto, e.secret, prepared.0);
      var become :- NormalizeBecome(req.becomeMethod, req.becomeUser);
      var row := Row(Trim(req.name), kind, Trim(req.username), ciphertext, prepared.1, [], become.0, become.1, []);
      if req.passphrase != "" {
        var sealed :- Encrypt(crypto, e.passphrase, req.passphrase);
        row := row.(passphrase := sealed);
      }
      if become.0 != NONE && Trim(req.becomeSecret) != "" {
        var sealed :- Encrypt(crypto, e.become, req.becomeSecret);
        row := row.(becomeSecret := sealed);
      }
      if !writes || id in rows {
        return Failed(StorageFailed);
      }
      rows := rows[id := row];
      r := Done(row);
    }

    method Update(id: string, req: UpdateRequest, e: Entropy, writes: bool) returns (r: Outcome<Row, Error>)
      modifies this`rows
      ensures r == (if id !in old(rows) then Failed(NotFound)
                    else var u := UpdatedRow(crypto, old(rows)[id], req, e);
                         if u.Failed? || writes then u else Failed(StorageFailed))
      ensures rows == if r.Done? then old(rows)[id := r.value] else old(rows)
    {
      if id !in rows {
        return Failed(NotFound);
      }
      var row := rows[id];
      if Trim(req.name) != "" {
        row := row.(name := Trim(req.name));
      }
      if Trim(req.username) != "" {
        row := row.(username := Trim(req.username));
      }
      row :- ChangeSecret(row, req, e);
      row :- ChangeBecome(row, req, e);
      if !writes {
        return Failed(StorageFailed);
      }
      rows := rows[id := row];
      r := Done(row);
    }

    /** The first half of Update: secret, public key and passphrase. */
    method ChangeSecret(before: Row, req: UpdateRequest, e: Entropy) returns (r: Outcome<Row, Error>)
      ensures r == SecretChanged(crypto, before, req, e)
    {
      var row := before;
      var inForce := "";
      if req.passphrase.Some? {
        inForce := req.passphrase.value;
      } else if row.passphrase != [] {
        inForce :- Decrypt(crypto, row.passphrase);
      }
      if req.password != "" || req.privateKey != "" {
        if req.passphrase.Some? && req.passphrase.value != "" && row.kind != SSH_KEY {
          return Failed(PassphraseNotSsh);
        }
        var prepared :- PrepareSecret(crypto, row.kind, req.password, req.privateKey, inForce, true);
        var ciphertext :- Encrypt(crypto, e.secret, prepared.0);
        row := row.(secret := ciphertext);
        row := row.(publicKey := prepared.1);
      } else if req.passphrase.Some? && req.passphrase.value != "" && row.kind == SSH_KEY {
        var key :- Decrypt(crypto, row.secret);
        var _ :- PrepareSecret(crypto, row.kind, "", key, req.passphrase.value, true);
      }
      if req.passphrase.Some? {
        if row.kind != SSH_KEY && req.passphrase.value != "" {
          return Failed(PassphraseNotSsh);
        }
        if req.passphrase.value == "" {
          row := row.(passphrase := []);
        } else {
          var sealed :- Encrypt(crypto, e.passphrase, req.passphrase.value);
          row := row.(passphrase := sealed);
        }
      }
      r := Done(row);
    }

    /** The second half of Update: how to become another user. */
    method ChangeBecome(before: Row, req: UpdateRequest, e: Entropy) returns (r: Outcome<Row, Error>)
      ensures r == BecomeChanged(crypto, before, req, e)
    {
      var row := before;
      if req.becomeMethod.Some? || req.becomeUser.Some? {
        var how, user := row.becomeMethod, row.becomeUser;
        if req.becomeMethod.Some? {
          how := req.becomeMethod.value;
        }
        if req.becomeUser.Some? {
          user := req.becomeUser.value;
        }
        var normalized :- NormalizeBecome(how, user);
        row := row.(becomeMethod := normalized.0);
        row := row.(becomeUser := normalized.1);
        if normalized.0 == NONE {
          row := row.(becomeSecret := []);
        }
      }
      if req.becomeSecret.Some? {
        if row.becomeMethod == NONE || req.becomeSecret.value == "" {
          row := row.(becomeSecret := []);
        } else {
          var sealed :- Encrypt(crypto, e.become, req.becomeSecret.value);
          row := row.(becomeSecret := sealed);
        }
      }
      r := Done(row);
    }

    method SshAuth(id: string) returns (r: Outcome<(string, Auth), Error>)
      ensures r == if id in rows then Authentication(crypto, rows[id]) else Failed(NotFound)
    {
      if id !in rows {
        return Failed(NotFound);
      }
      var row := rows[id];
      var secret :- Decrypt(crypto, row.secret);
      var auth: Auth;
      if row.kind == PASSWORD {
        auth := Password(secret);
      } else if row.kind == SSH_KEY {
        var passphrase := "";
        if row.passphrase != [] {
          passphrase :- Decrypt(crypto, row.passphrase);
        }
        var signer := Parse(crypto, secret, passphrase);
        if signer.None? {
          return Failed(InvalidKey);
        }
        auth := PublicKey(signer.value);
      } else {
        return Failed(InvalidType);
      }
      var username := Trim(row.username);
      if username == "" {
        return Failed(EmptyUsername);
      }
      r := Done((username, auth));
    }
  }
}
