/**
  Runs of the vault.  An update reads its row, works on the copy, and writes the whole row back; other calls may
  come in between.
 */
module VaultRuns {
  import opened Basics
  import opened Outcomes
  import opened TrimText
  import opened VaultCrypto
  import opened Credentials
  import opened VaultRows

  /** An update that has computed its row and not yet written it. */
  datatype Pending = Pending(id: string, row: Row)

  datatype System = System(rows: map<string, Row>, pending: map<nat, Pending>)

  datatype Act =
    | Create(id: string, createRequest: CreateRequest, entropy: Entropy)
    | Begin(call: nat, id: string, request: UpdateRequest, entropy: Entropy)
    | Write(call: nat, ok: bool)
    | Delete(id: string)

  ghost predicate Step(c: Crypto, a: Act, s: System, t: System) {
    match a
    case Create(id, req, e) =>
      // A failing call, or an identifier already taken, stores nothing.
      t == if NewRow(c, req, e).Done? && id !in s.rows then s.(rows := s.rows[id := NewRow(c, req, e).value]) else s
    case Begin(call, id, req, e) =>
      && call !in s.pending
      && t == if id in s.rows && UpdatedRow(c, s.rows[id], req, e).Done?
              then s.(pending := s.pending[call := Pending(id, UpdatedRow(c, s.rows[id], req, e).value)])
              else s
    case Write(call, ok) =>
      // The row written is the whole one; a row deleted meanwhile stays deleted.
      && call in s.pending
      && var p := s.pending[call];
         t == System(if ok && p.id in s.rows then s.rows[p.id := p.row] else s.rows, s.pending - {call})
    case Delete(id) => t == s.(rows := s.rows - {id})
  }

  ghost predicate IsRun(c: Crypto, run: seq<System>, acts: seq<Act>) {
    && |run| == |acts| + 1 && run[0] == System(map[], map[])
    && forall i :: 0 <= i < |acts| ==> Step(c, acts[i], run[i], run[i + 1])
  }

  ghost predicate AllRows(c: Crypto, s: System) {
    && (forall id :: id in s.rows ==> RowInv(c, s.rows[id]))
    && (forall call :: call in s.pending ==> RowInv(c, s.pending[call].row))
  }

  lemma StepKeepsRows(c: Crypto, a: Act, s: System, t: System)
    requires Sound(c) && AllRows(c, s) && Step(c, a, s, t)
    ensures AllRows(c, t)
  {
    hide RowInv, NewRow, UpdatedRow, Sound;
    match a {
      case Create(id, req, e) =>
        if NewRow(c, req, e).Done? {
          NewRowKeeps(c, req, e);
        }
      case Begin(call, id, req, e) =>
        if id in s.rows && UpdatedRow(c, s.rows[id], req, e).Done? {
          UpdateKeeps(c, s.rows[id], req, e);
        }
      case _ =>
    }
  }

  /** Over every run, every row keeps its invariant, however stale the copies that were written. */
  lemma {:induction false} RunKeepsRows(c: Crypto, run: seq<System>, acts: seq<Act>, n: nat)
    requires Sound(c) && IsRun(c, run, acts) && n <= |acts|
    ensures AllRows(c, run[n])
    decreases n
  {
    hide Step, RowInv, Sound;
    if n > 0 {
      RunKeepsRows(c, run, acts, n - 1);
      assert Step(c, acts[n - 1], run[n - 1], run[n - 1 + 1]);
      StepKeepsRows(c, acts[n - 1], run[n - 1], run[n]);
    }
  }

  // Usability over runs

  ghost predicate AllUsable(c: Crypto, s: System) {
    && (forall id :: id in s.rows ==> Usable(c, s.rows[id]))
    && (forall call :: call in s.pending ==> Usable(c, s.pending[call].row))
  }

  /** A successful update clears the passphrase of a stored key that the parser does not take without one. */
  ghost predicate LocksOut(c: Crypto, s: System, a: Act) {
    && a.Begin? && a.id in s.rows && Clears(s.rows[a.id], a.request)
    && UpdatedRow(c, s.rows[a.id], a.request, a.entropy).Done?
    && var key := Decrypt(c, s.rows[a.id].secret);
       key.Done? && c.parsePlain(key.value).None?
  }

  lemma SecretReadable(c: Crypto, row: Row)
    requires RowInv(c, row)
    ensures Decrypt(c, row.secret).Done?
  {
    hide Decrypt;
  }

  /** A step keeps every row and every pending copy usable if and only if it locks nothing out. */
  lemma StepKeepsUsable(c: Crypto, a: Act, s: System, t: System)
    requires Sound(c) && AllRows(c, s) && AllUsable(c, s) && Step(c, a, s, t)
    ensures AllUsable(c, t) <==> !LocksOut(c, s, a)
  {
    hide RowInv, Usable, NewRow, UpdatedRow, Sound, Clears, Decrypt;
    match a {
      case Create(id, req, e) =>
        if NewRow(c, req, e).Done? {
          NewRowKeeps(c, req, e);
        }
      case Begin(call, id, req, e) =>
        if id in s.rows && UpdatedRow(c, s.rows[id], req, e).Done? {
          SecretReadable(c, s.rows[id]);
          UpdateUsable(c, s.rows[id], req, e);
          assert t.pending[call].row == UpdatedRow(c, s.rows[id], req, e).value;
        }
      case _ =>
    }
  }

  /** Over a whole run, every row and copy is always usable by the SSH bridge if and only if nothing was locked out. */
  lemma {:induction false} UsableUnlessLockedOut(c: Crypto, run: seq<System>, acts: seq<Act>, n: nat)
    requires Sound(c) && IsRun(c, run, acts) && n <= |acts|
    ensures (forall k :: 0 <= k <= n ==> AllUsable(c, run[k])) <==>
            (forall k :: 0 <= k < n ==> !LocksOut(c, run[k], acts[k]))
    decreases n
  {
    hide Step, RowInv, Usable, Sound, LocksOut;
    if n > 0 {
      UsableUnlessLockedOut(c, run, acts, n - 1);
      RunKeepsRows(c, run, acts, n - 1);
      assert Step(c, acts[n - 1], run[n - 1], run[n - 1 + 1]);
      if AllUsable(c, run[n - 1]) {
        StepKeepsUsable(c, acts[n - 1], run[n - 1], run[n]);
      }
    }
  }

  /** In such a run SSH login fails on a blank username and on nothing else. */
  lemma LoginFailsOnlyOnBlankName(c: Crypto, run: seq<System>, acts: seq<Act>, n: nat, id: string)
    requires Sound(c) && IsRun(c, run, acts) && n <= |acts| && id in run[n].rows
    requires forall i :: 0 <= i < n ==> !LocksOut(c, run[i], acts[i])
    ensures Authentication(c, run[n].rows[id]).Failed? <==> Blank(run[n].rows[id].username)
    ensures Authentication(c, run[n].rows[id]).Failed? ==> Authentication(c, run[n].rows[id]) == Failed(EmptyUsername)
  {
    hide Step, LocksOut, Blank, Usable, RowInv, Authentication;
    RunKeepsRows(c, run, acts, n);
    UsableUnlessLockedOut(c, run, acts, n);
    AuthExactly(c, run[n].rows[id]);
  }

  /** Locking out does happen: any key the parser takes only with its passphrase, once that is cleared. */
  lemma ClearingLocksOut(c: Crypto, key: string, passphrase: string, n: Nonce)
    requires Sound(c) && key != "" && passphrase != ""
    requires c.parsePlain(key).None? && c.parseLocked(key, passphrase).Some?
    ensures var e := Entropy(Some(n), Some(n), Some(n));
            var made := NewRow(c, CreateRequest("pi", SSH_KEY, "pi", "", key, passphrase, "", "", ""), e);
            && made.Done? && Authentication(c, made.value).Done?
            && var cleared := UpdatedRow(c, made.value, UpdateRequest("", "", "", "", Some(""), None, None, None), e);
               cleared.Done? && Authentication(c, cleared.value) == Failed(InvalidKey)
  {
    hide IsSpace, Sound, Encrypt, Decrypt;
    var e := Entropy(Some(n), Some(n), Some(n));
    var create := CreateRequest("pi", SSH_KEY, "pi", "", key, passphrase, "", "", "");
    var update := UpdateRequest("", "", "", "", Some(""), None, None, None);
    TightWords();
    EncryptedReads(c, Some(n), key);
    EncryptedReads(c, Some(n), passphrase);
    CreateSucceeds(c, create, e);
    NewRowKeeps(c, create, e);
    var made := NewRow(c, create, e).value;
    AuthExactly(c, made);
    assert Reads(c, made.secret, key);
    UpdateUsable(c, made, update, e);
    UpdateKeeps(c, made, update, e);
    AuthExactly(c, UpdatedRow(c, made, update, e).value);
  }

  lemma TightWords()
    ensures Trim(SSH_KEY) == SSH_KEY && Trim("pi") == "pi" && !Blank("pi") && Trim("") == ""
  {
    assert !IsSpace("pi"[0]);
  }
}
