/** Runs that finish late (main.rs `exec`, `keep`; store.rs `forget`): what the store holds, over every
    order of runs starting, runs finishing and forgets. */
module VaultGeneration {
  import opened Arithmetic
  import opened Common
  import opened VaultStrip
  import opened VaultSearch
  import opened VaultStore
  import opened VaultRedaction
  import opened VaultSession

  datatype Capture = Plain | Session | Secret(name: string) | Pinentry(name: string) | Vault | VaultMerge

  const SAVED_UNSANITIZED: string := "__QSBW_SAVED_UNSANITIZED__"

  /** What the helper reads out of a run's output: a decoded answer, a vault read; and
      how it lowers the case of what is searched. */
  datatype Readers = Readers(
    pin: string -> Option<string>,
    vault: string -> Option<Object>,
    lower: Lowering)

  /** What the panel is shown of a run's output: text, or a vault read printed again. */
  datatype Shown = Output(text: string) | VaultRead(vault: Object)

  function Forwarded(read: Readers, current: bool, capture: Capture, code: int, text: string): Shown {
    match capture
    case Plain => Output(text)
    case Session =>
      if code == 0 && ExtractSession(text).Some? then Output(Redacted(text, ExtractSession(text).value, HELD_SESSION))
      else Output(text)
    case Secret(_) => Output("")
    case Pinentry(_) => Output("")
    case Vault => ForwardedVault(read, current, code, text)
    case VaultMerge => ForwardedVault(read, current, code, text)
  }

  /** Of a vault read only the stripped one, and of other output only the save marker. */
  function ForwardedVault(read: Readers, current: bool, code: int, text: string): Shown {
    if code == 0 && current && read.vault(text).Some? then VaultRead(StrippedVault(read.vault(text).value))
    else Output(if Trim(text) == SAVED_UNSANITIZED then SAVED_UNSANITIZED else "")
  }

  /** What a finished run leaves in the store. */
  function Kept(read: Readers, c: Contents, generation: nat, capture: Capture, code: int, text: string): Contents {
    if c.generation != generation then c else
    match capture
    case Plain => c
    case Session => if code == 0 && ExtractSession(text).Some? then c.(session := ExtractSession(text)) else c
    case Secret(name) => if text != "" then c.(secrets := c.secrets[name := text]) else c
    case Pinentry(name) =>
      if code == 0 && read.pin(text).Some? && read.pin(text).value != "" then
        c.(secrets := c.secrets[name := read.pin(text).value])
      else
        c
    case Vault =>
      if code == 0 && read.vault(text).Some? then Loaded(read.lower, c, read.vault(text).value, true) else c
    case VaultMerge =>
      if code == 0 && read.vault(text).Some? then Loaded(read.lower, c, read.vault(text).value, false) else c
  }

  predicate HoldsSecret(read: Readers, capture: Capture, code: int, text: string) {
    || (capture.Secret? && text != "")
    || (capture.Pinentry? && code == 0 && read.pin(text).Some? && read.pin(text).value != "")
  }

  /** `keep`: what the panel is shown, and whether a session key and whether a secret was kept. */
  method Keep(read: Readers, store: Store, generation: nat, capture: Capture, code: int, text: string)
    returns (shown: Shown, session: bool, held: bool)
    requires store.Valid() && store.lower == read.lower
    modifies store
    ensures store.Valid() && store.View() == Kept(read, old(store.View()), generation, capture, code, text)
    ensures shown == Forwarded(read, old(store.generation) == generation, capture, code, text)
    ensures session <==>
            capture.Session? && old(store.generation) == generation && code == 0 && ExtractSession(text).Some?
    ensures held <==> old(store.generation) == generation && HoldsSecret(read, capture, code, text)
  {
    hide Loaded, Indexed, AsOrdered, StrippedVault;
    session, held := false, false;
    var current := store.generation == generation;
    match capture
    case Plain =>
      shown := Output(text);
    case Session =>
      shown := Output(text);
      if code == 0 && ExtractSession(text).Some? {
        shown := Output(Redacted(text, ExtractSession(text).value, HELD_SESSION));
        if current {
          store.SetSession(ExtractSession(text).value);
          session := true;
        }
      }
    case Secret(name) =>
      if current && text != "" {
        store.SetSecret(name, text);
        held := true;
      }
      shown := Output("");
    case Pinentry(name) =>
      if current && code == 0 {
        var answer := read.pin(text);
        if answer.Some? && answer.value != "" {
          store.SetSecret(name, answer.value);
          held := true;
        }
      }
      shown := Output("");
    case Vault =>
      shown := KeepVault(read, store, current, code, text, true);
    case VaultMerge =>
      shown := KeepVault(read, store, current, code, text, false);
  }

  method KeepVault(read: Readers, store: Store, current: bool, code: int, text: string,
                   replace: bool) returns (shown: Shown)
    requires store.Valid() && store.lower == read.lower
    modifies store
    ensures store.Valid() && store.View() ==
              if code == 0 && current && read.vault(text).Some? then
                Loaded(read.lower, old(store.View()), read.vault(text).value, replace)
              else
                old(store.View())
    ensures shown == ForwardedVault(read, current, code, text)
  {
    hide Loaded, Indexed, AsOrdered, StrippedVault;
    if code == 0 && current && read.vault(text).Some? {
      var stripped := store.StripVault(read.vault(text).value, replace);
      return VaultRead(stripped);
    }
    shown := Output(if Trim(text) == SAVED_UNSANITIZED then SAVED_UNSANITIZED else "");
  }

  /** What the panel is shown: nothing of a captured secret or answer; of a capture of the vault the read with its
      items stripped, exactly when it is kept, and otherwise the save marker or nothing; and everything of a run
      with nothing to capture. */
  lemma CapturedIsNotShown(read: Readers, current: bool, capture: Capture, code: int, text: string)
    ensures var shown := Forwarded(read, current, capture, code, text);
            && (capture.Secret? || capture.Pinentry? ==> shown == Output(""))
            && (shown.VaultRead? <==>
                  (capture.Vault? || capture.VaultMerge?) && code == 0 && current && read.vault(text).Some?)
            && (shown.VaultRead? ==> IsStrippedRead(read.vault(text).value, shown.vault))
            && (capture.Vault? || capture.VaultMerge? ==>
                  shown.VaultRead? || shown.text == if Trim(text) == SAVED_UNSANITIZED then SAVED_UNSANITIZED else "")
            && (capture.Plain? || (capture.Session? && (code != 0 || ExtractSession(text).None?)) ==>
                  shown == Output(text))
  {
    if read.vault(text).Some? {
      ReadIsStripped(read.vault(text).value);
    }
    hide IsStrippedRead, StrippedVault, Trim, ExtractSession;
  }

  /** Two outputs of one run are shown the same if both are secrets, both answers, or reads of vaults that
      differ at most in the secrets of their items. */
  lemma ShownHidesSecrets(read: Readers, current: bool, capture: Capture, code: int, text: string, other: string)
    requires capture.Vault? || capture.VaultMerge? ==>
               && read.vault(text).Some? && read.vault(other).Some?
               && ReadsAlike(read.vault(text).value, read.vault(other).value)
               && Trim(text) != SAVED_UNSANITIZED && Trim(other) != SAVED_UNSANITIZED
    requires !capture.Plain? && !capture.Session?
    ensures Forwarded(read, current, capture, code, text) == Forwarded(read, current, capture, code, other)
  {
    if capture.Vault? || capture.VaultMerge? {
      ReadHidesExactlySecrets(read.vault(text).value, read.vault(other).value);
    }
    hide StrippedVault, ReadsAlike, Trim;
  }

  // ---- Interleavings ----------------------------------------------------------------------------

  /** A run in progress; `start` counts the forgets before it. */
  datatype Running = Running(start: nat, generation: nat, capture: Capture)

  datatype Finished = Finished(start: nat, at: nat, capture: Capture, code: int, text: string)

  /** The session key copied into a secret. */
  datatype Copy = Copy(name: string, value: string, at: nat)

  datatype State = State(
    store: Contents,
    running: map<nat, Running>,
    next: nat,
    /** The keep list of each forget so far, and what finished and was copied under which of them. */
    keeps: seq<set<string>>,
    finished: set<Finished>,
    copies: set<Copy>)

  datatype Action =
    | Start(capture: Capture)
    | Finish(run: nat, code: int, text: string)
    | Forget(keep: set<string>)
    | HoldSession(name: string)
    | ForgetSecret(name: string)
    | ForgetItem(id: string)

  const EMPTY: State := State(NOTHING, map[], 0, [], {}, {})

  function Step(read: Readers, s: State, a: Action): State {
    match a
    case Start(capture) =>
      s.(running := s.running[s.next := Running(|s.keeps|, s.store.generation, capture)], next := s.next + 1)
    case Finish(run, code, text) =>
      if run !in s.running then s else
      var r := s.running[run];
      s.(store := Kept(read, s.store, r.generation, r.capture, code, text), running := s.running - {run},
         finished := s.finished + {Finished(r.start, |s.keeps|, r.capture, code, text)})
    case Forget(keep) => s.(store := Forgotten(s.store, keep), keeps := s.keeps + [keep])
    case HoldSession(name) =>
      if s.store.session.None? then s else
      var key := s.store.session.value;
      s.(store := s.store.(secrets := s.store.secrets[name := key]), copies := s.copies + {Copy(name, key, |s.keeps|)})
    case ForgetSecret(name) => s.(store := s.store.(secrets := s.store.secrets - {name}))
    case ForgetItem(id) => s.(store := s.store.(items := Delete(s.store.items, id)))
  }

  function After(read: Readers, actions: seq<Action>): State {
    if actions == [] then EMPTY else Step(read, After(read, actions[..|actions| - 1]), actions[|actions| - 1])
  }

  // ---- Where things come from -------------------------------------------------------------------

  /** The run's generation was the store's when it finished. */
  ghost predicate Current(f: Finished) {
    f.at % GENERATIONS == f.start % GENERATIONS
  }

  ghost predicate GivesSession(read: Readers, f: Finished, key: string) {
    f.capture == Session && f.code == 0 && ExtractSession(f.text) == Some(key)
  }

  ghost predicate GivesSecret(read: Readers, f: Finished, name: string, value: string) {
    || (f.capture == Secret(name) && value == f.text)
    || (f.capture == Pinentry(name) && f.code == 0 && read.pin(f.text) == Some(value))
  }

  ghost predicate Listed(lower: Lowering, vault: Object, h: Held) {
    exists item :: (item in ListAt(vault, "items") || item in ListAt(vault, "sshKeys")) && item.Obj?
                   && "id" in item.fields && item.fields["id"] == Str(h.id) && h == HeldOf(lower, h.id, item.fields)
  }

  ghost predicate GivesItem(read: Readers, f: Finished, h: Held) {
    && (f.capture == Vault || f.capture == VaultMerge)
    && f.code == 0 && read.vault(f.text).Some? && Listed(read.lower, read.vault(f.text).value, h)
  }

  ghost predicate SessionKnown(read: Readers, finished: set<Finished>, now: nat, session: Option<string>) {
    session.Some? ==> exists f :: f in finished && Current(f) && f.at == now && GivesSession(read, f, session.value)
  }

  ghost predicate ItemKnown(read: Readers, finished: set<Finished>, now: nat, h: Held) {
    exists f :: f in finished && Current(f) && f.at == now && GivesItem(read, f, h)
  }

  ghost predicate ItemsKnown(read: Readers, finished: set<Finished>, now: nat, items: Ordered) {
    forall id :: id in items.entries ==> ItemKnown(read, finished, now, items.entries[id])
  }

  /** Named in every forget from the `at`-th on. */
  ghost predicate KeptSince(keeps: seq<set<string>>, at: nat, name: string) {
    at <= |keeps| && forall i :: at <= i < |keeps| ==> name in keeps[i]
  }

  ghost predicate SecretKnown(read: Readers, finished: set<Finished>, copies: set<Copy>, keeps: seq<set<string>>,
                              name: string, value: string) {
    || (exists f :: f in finished && Current(f) && GivesSecret(read, f, name, value) && KeptSince(keeps, f.at, name))
    || (exists c :: c in copies && c.name == name && c.value == value && KeptSince(keeps, c.at, name))
  }

  ghost predicate SecretsKnown(read: Readers, finished: set<Finished>, copies: set<Copy>, keeps: seq<set<string>>,
                               secrets: map<string, string>) {
    forall name :: name in secrets ==> SecretKnown(read, finished, copies, keeps, name, secrets[name])
  }

  /** A copied key was a session key of the vault open at that time. */
  ghost predicate CopiesKnown(read: Readers, finished: set<Finished>, copies: set<Copy>) {
    forall c :: c in copies ==>
      exists f :: f in finished && Current(f) && f.at == c.at && GivesSession(read, f, c.value)
  }

  ghost predicate Dated(s: State) {
    && s.store.generation == |s.keeps| % GENERATIONS
    && (forall run :: run in s.running ==>
          s.running[run].start <= |s.keeps| && s.running[run].generation == s.running[run].start % GENERATIONS)
    && (forall f :: f in s.finished ==> f.start <= f.at <= |s.keeps|)
    && (forall c :: c in s.copies ==> c.at <= |s.keeps|)
  }

  ghost predicate Inv(read: Readers, s: State) {
    && Dated(s)
    && SessionKnown(read, s.finished, |s.keeps|, s.store.session)
    && ItemsKnown(read, s.finished, |s.keeps|, s.store.items)
    && SecretsKnown(read, s.finished, s.copies, s.keeps, s.store.secrets)
    && CopiesKnown(read, s.finished, s.copies)
  }

  // ---- What each step keeps ---------------------------------------------------------------------

  lemma {:induction false} LoadedFrom(lower: Lowering, m: Ordered, items: seq<Value>, id: string)
    requires id in InsertAll(lower, m, items).entries
    ensures var h := InsertAll(lower, m, items).entries[id];
            || (id in m.entries && h == m.entries[id])
            || (exists item :: item in items && item.Obj? && "id" in item.fields && item.fields["id"] == Str(h.id)
                               && h == HeldOf(lower, h.id, item.fields))
    decreases |items|
  {
    if items != [] {
      hide HeldOf;
      var init, last := items[..|items| - 1], items[|items| - 1];
      if id in InsertAll(lower, m, init).entries {
        LoadedFrom(lower, m, init, id);
      }
      assert last in items;
      assert forall item :: item in init ==> item in items;
    }
  }

  lemma LoadedItems(lower: Lowering, c: Contents, vault: Object, replace: bool, id: string)
    requires id in Loaded(lower, c, vault, replace).items.entries
    ensures var h := Loaded(lower, c, vault, replace).items.entries[id];
            (id in c.items.entries && h == c.items.entries[id]) || Listed(lower, vault, h)
  {
    hide HeldOf, InsertItem;
    var start := if replace then NO_ITEMS else c.items;
    var first := InsertAll(lower, start, ListAt(vault, "items"));
    LoadedFrom(lower, first, ListAt(vault, "sshKeys"), id);
    if id in first.entries {
      LoadedFrom(lower, start, ListAt(vault, "items"), id);
    }
  }

  /** More finished runs and copies take nothing away. */
  lemma MoreIsKnown(read: Readers, s: State, f: Finished)
    requires Inv(read, s)
    ensures SessionKnown(read, s.finished + {f}, |s.keeps|, s.store.session)
    ensures ItemsKnown(read, s.finished + {f}, |s.keeps|, s.store.items)
    ensures SecretsKnown(read, s.finished + {f}, s.copies, s.keeps, s.store.secrets)
    ensures CopiesKnown(read, s.finished + {f}, s.copies)
  {
    hide Current, GivesSession, GivesItem, GivesSecret, KeptSince;
    forall id | id in s.store.items.entries
      ensures ItemKnown(read, s.finished + {f}, |s.keeps|, s.store.items.entries[id])
    {
      assert ItemKnown(read, s.finished, |s.keeps|, s.store.items.entries[id]);
    }
    forall name | name in s.store.secrets
      ensures SecretKnown(read, s.finished + {f}, s.copies, s.keeps, name, s.store.secrets[name])
    {
      assert SecretKnown(read, s.finished, s.copies, s.keeps, name, s.store.secrets[name]);
    }
  }

  /** A generation that matches means a whole number of turns of the counter since the start. */
  lemma SameGeneration(s: State, run: nat)
    requires Dated(s) && run in s.running
    ensures s.running[run].generation == s.store.generation <==> (|s.keeps| - s.running[run].start) % GENERATIONS == 0
  {
    ModIff(|s.keeps|, s.running[run].start, GENERATIONS);
  }

  lemma FinishKeeps(read: Readers, s: State, run: nat, code: int, text: string)
    requires Inv(read, s) && run in s.running
    ensures Inv(read, Step(read, s, Finish(run, code, text)))
  {
    var r := s.running[run];
    var f := Finished(r.start, |s.keeps|, r.capture, code, text);
    MoreIsKnown(read, s, f);
    var c := Kept(read, s.store, r.generation, r.capture, code, text);
    var s' := Step(read, s, Finish(run, code, text));
    assert Dated(s');
    if s.store.generation == r.generation {
      assert f in s'.finished && Current(f);
      assert KeptSince(s.keeps, |s.keeps|, if r.capture.Secret? || r.capture.Pinentry? then r.capture.name else "");
      match r.capture
      case Plain =>
      case Session =>
        assert c.session != s.store.session ==> GivesSession(read, f, c.session.value);
      case Secret(name) => FinishSecret(read, s', s.store.secrets, c.secrets, f, name);
      case Pinentry(name) => FinishSecret(read, s', s.store.secrets, c.secrets, f, name);
      case Vault => FinishItems(read, s', s.store, c, f);
      case VaultMerge => FinishItems(read, s', s.store, c, f);
    }
  }

  lemma FinishSecret(read: Readers, s: State, before: map<string, string>, after: map<string, string>, f: Finished,
                     name: string)
    requires SecretsKnown(read, s.finished, s.copies, s.keeps, before)
    requires f in s.finished && Current(f) && KeptSince(s.keeps, f.at, name)
    requires after == before
             || (name in after && after == before[name := after[name]] && GivesSecret(read, f, name, after[name]))
    ensures SecretsKnown(read, s.finished, s.copies, s.keeps, after)
  {
    hide Current, GivesSecret, KeptSince;
    forall n | n in after
      ensures SecretKnown(read, s.finished, s.copies, s.keeps, n, after[n])
    {
      if after != before && n == name {
        assert GivesSecret(read, f, n, after[n]);
      } else {
        assert n in before && after[n] == before[n];
      }
    }
  }

  lemma FinishItems(read: Readers, s: State, before: Contents, after: Contents, f: Finished)
    requires ItemsKnown(read, s.finished, |s.keeps|, before.items)
    requires f in s.finished && Current(f) && f.at == |s.keeps| && (f.capture == Vault || f.capture == VaultMerge)
    requires after == if f.code == 0 && read.vault(f.text).Some? then
               Loaded(read.lower, before, read.vault(f.text).value, f.capture.Vault?) else before
    ensures ItemsKnown(read, s.finished, |s.keeps|, after.items)
  {
    hide Current, Listed, Loaded;
    forall id | id in after.items.entries
      ensures ItemKnown(read, s.finished, |s.keeps|, after.items.entries[id])
    {
      if f.code == 0 && read.vault(f.text).Some? {
        LoadedItems(read.lower, before, read.vault(f.text).value, f.capture.Vault?, id);
        if Listed(read.lower, read.vault(f.text).value, after.items.entries[id]) {
          assert GivesItem(read, f, after.items.entries[id]);
        } else {
          assert ItemKnown(read, s.finished, |s.keeps|, before.items.entries[id]);
        }
      }
    }
  }

  lemma ForgetKeeps(read: Readers, s: State, keep: set<string>)
    requires Inv(read, s)
    ensures Inv(read, Step(read, s, Forget(keep)))
  {
    hide Current, GivesSession, GivesItem, GivesSecret;
    var s' := Step(read, s, Forget(keep));
    assert s'.store.generation == |s'.keeps| % GENERATIONS;
    forall name | name in s'.store.secrets
      ensures SecretKnown(read, s'.finished, s'.copies, s'.keeps, name, s'.store.secrets[name])
    {
      assert SecretKnown(read, s.finished, s.copies, s.keeps, name, s.store.secrets[name]);
      KeptLonger(s.keeps, keep, name);
    }
  }

  lemma KeptLonger(keeps: seq<set<string>>, keep: set<string>, name: string)
    requires name in keep
    ensures forall at :: KeptSince(keeps, at, name) ==> KeptSince(keeps + [keep], at, name)
  {
  }

  lemma HoldSessionKeeps(read: Readers, s: State, name: string)
    requires Inv(read, s)
    ensures Inv(read, Step(read, s, HoldSession(name)))
  {
    hide Current, GivesSession, GivesItem, GivesSecret;
    if s.store.session.Some? {
      var key := s.store.session.value;
      var c := Copy(name, key, |s.keeps|);
      var s' := Step(read, s, HoldSession(name));
      forall n | n in s'.store.secrets
        ensures SecretKnown(read, s'.finished, s'.copies, s'.keeps, n, s'.store.secrets[n])
      {
        if n == name {
          assert c in s'.copies && KeptSince(s'.keeps, c.at, n);
        } else {
          assert SecretKnown(read, s.finished, s.copies, s.keeps, n, s.store.secrets[n]);
        }
      }
    }
  }

  lemma StepKeeps(read: Readers, s: State, a: Action)
    requires Inv(read, s)
    ensures Inv(read, Step(read, s, a))
  {
    match a
    case Start(_) =>
    case Finish(run, code, text) =>
      if run in s.running {
        FinishKeeps(read, s, run, code, text);
      }
    case Forget(keep) => ForgetKeeps(read, s, keep);
    case HoldSession(name) => HoldSessionKeeps(read, s, name);
    case ForgetSecret(_) =>
    case ForgetItem(_) =>
  }

  lemma {:induction false} EveryRunKeeps(read: Readers, actions: seq<Action>)
    ensures Inv(read, After(read, actions))
    decreases |actions|
  {
    if actions != [] {
      EveryRunKeeps(read, actions[..|actions| - 1]);
      hide Inv;
      StepKeeps(read, After(read, actions[..|actions| - 1]), actions[|actions| - 1]);
    }
  }

  // ---- Whole histories --------------------------------------------------------------------------

  /** A run that finished in the vault it started in: no forget came between. */
  ghost predicate OneVault(f: Finished) {
    f.start == f.at
  }

  lemma CurrentIsOneVault(s: State, f: Finished)
    requires Dated(s) && f in s.finished && Current(f) && |s.keeps| < GENERATIONS
    ensures OneVault(f)
  {
    SmallMod(f.at, GENERATIONS);
    SmallMod(f.start, GENERATIONS);
  }

  lemma SmallMod(a: nat, m: nat)
    requires a < m
    ensures a % m == a
  {
  }

  /** Over every interleaving with fewer than 2^64 forgets: the session key held came from a run
      started after the last forget. */
  lemma SessionIsOfThisVault(read: Readers, actions: seq<Action>)
    requires |After(read, actions).keeps| < GENERATIONS && After(read, actions).store.session.Some?
    ensures exists f :: f in After(read, actions).finished && f.start == |After(read, actions).keeps|
                        && GivesSession(read, f, After(read, actions).store.session.value)
  {
    EveryRunKeeps(read, actions);
    var s := After(read, actions);
    hide After;
    var f :| f in s.finished && Current(f) && f.at == |s.keeps| && GivesSession(read, f, s.store.session.value);
    CurrentIsOneVault(s, f);
  }

  /** And so did every item held. */
  lemma ItemsAreOfThisVault(read: Readers, actions: seq<Action>, id: string)
    requires |After(read, actions).keeps| < GENERATIONS && id in After(read, actions).store.items.entries
    ensures exists f :: f in After(read, actions).finished && f.start == |After(read, actions).keeps|
                        && GivesItem(read, f, After(read, actions).store.items.entries[id])
  {
    EveryRunKeeps(read, actions);
    var s := After(read, actions);
    hide After;
    var h := s.store.items.entries[id];
    assert ItemKnown(read, s.finished, |s.keeps|, h);
    var f :| f in s.finished && Current(f) && f.at == |s.keeps| && GivesItem(read, f, h);
    CurrentIsOneVault(s, f);
  }

  /** Each secret held was captured by a run, or copied from the session key of a run, of the vault
      open at the time, and named in the keep list of every forget since. */
  lemma SecretsAreKeptOnPurpose(read: Readers, actions: seq<Action>, name: string)
    requires |After(read, actions).keeps| < GENERATIONS && name in After(read, actions).store.secrets
    ensures var s := After(read, actions);
            || (exists f :: f in s.finished && OneVault(f) && GivesSecret(read, f, name, s.store.secrets[name])
                            && KeptSince(s.keeps, f.at, name))
            || (exists f :: f in s.finished && OneVault(f) && GivesSession(read, f, s.store.secrets[name])
                            && KeptSince(s.keeps, f.at, name))
  {
    EveryRunKeeps(read, actions);
    var s := After(read, actions);
    hide After, GivesSession, GivesSecret, KeptSince;
    var value := s.store.secrets[name];
    assert SecretKnown(read, s.finished, s.copies, s.keeps, name, value);
    if f :| f in s.finished && Current(f) && GivesSecret(read, f, name, value) && KeptSince(s.keeps, f.at, name) {
      CurrentIsOneVault(s, f);
    } else {
      var c :| c in s.copies && c.name == name && c.value == value && KeptSince(s.keeps, c.at, name);
      var f :| f in s.finished && Current(f) && f.at == c.at && GivesSession(read, f, c.value);
      CurrentIsOneVault(s, f);
    }
  }

  /** Exactly when a run that outlived a forget is still taken for current. */
  lemma OutlivedIff(read: Readers, actions: seq<Action>, run: nat)
    requires run in After(read, actions).running
    ensures var s := After(read, actions);
            var forgets := |s.keeps| - s.running[run].start;
            s.running[run].generation == s.store.generation && forgets != 0 <==>
            forgets > 0 && forgets % GENERATIONS == 0
  {
    EveryRunKeeps(read, actions);
    hide After;
    SameGeneration(After(read, actions), run);
  }

  function Forgets(n: nat): seq<Action> {
    if n == 0 then [Start(Session)] else Forgets(n - 1) + [Forget({})]
  }

  lemma {:induction false} AfterForgets(read: Readers, n: nat)
    ensures var s := After(read, Forgets(n));
            && |s.keeps| == n && s.running == map[0 := Running(0, 0, Session)]
    decreases n
  {
    if n == 0 {
      assert [Start(Session)][..0] == [];
      assert After(read, []) == EMPTY;
    } else {
      AfterForgets(read, n - 1);
      hide Forgotten;
      assert Forgets(n)[..|Forgets(n)| - 1] == Forgets(n - 1);
    }
  }

  /** The counter comes round: after 2^64 forgets a run from before the first one is taken for current,
      and its session key is held. */
  lemma LateRunIsKept(read: Readers, text: string)
    requires ExtractSession(text).Some?
    ensures After(read, Forgets(GENERATIONS) + [Finish(0, 0, text)]).store.session == ExtractSession(text)
  {
    AfterForgets(read, GENERATIONS);
    EveryRunKeeps(read, Forgets(GENERATIONS));
    var actions := Forgets(GENERATIONS) + [Finish(0, 0, text)];
    assert actions[..|actions| - 1] == Forgets(GENERATIONS);
    hide Forgets;
  }

  // ---- What each step leaves --------------------------------------------------------------------

  lemma {:induction false} AlwaysInStep(read: Readers, actions: seq<Action>)
    ensures InStep(After(read, actions).store.items)
    decreases |actions|
  {
    if actions != [] {
      var s, a := After(read, actions[..|actions| - 1]), actions[|actions| - 1];
      AlwaysInStep(read, actions[..|actions| - 1]);
      hide InStep;
      assert InStep(NO_ITEMS) by { NothingInStep(); }
      if a.ForgetItem? {
        DeleteLeaves(s.store.items, a.id, "");
      } else if a.Finish? && a.run in s.running && read.vault(a.text).Some? {
        LoadHolds(read.lower, s.store, read.vault(a.text).value, true, "");
        LoadHolds(read.lower, s.store, read.vault(a.text).value, false, "");
      }
      hide Loaded, Delete;
    } else {
      NothingInStep();
    }
  }

  lemma NothingInStep()
    ensures InStep(NO_ITEMS)
  {
  }

  /** The secret a run brings, under its name. */
  function SecretOf(read: Readers, capture: Capture, code: int, text: string): Option<(string, string)> {
    if capture.Secret? && text != "" then Some((capture.name, text))
    else if capture.Pinentry? && code == 0 && read.pin(text).Some? && read.pin(text).value != "" then
      Some((capture.name, read.pin(text).value))
    else None
  }

  /** The vault a run brings. */
  function VaultOf(read: Readers, capture: Capture, code: int, text: string): Option<Object> {
    if (capture.Vault? || capture.VaultMerge?) && code == 0 then read.vault(text) else None
  }

  /** Over every interleaving: a run of the present generation that finishes leaves exactly what it captured,
      beside what there was; one of an earlier generation leaves nothing. */
  lemma FinishedIsKept(read: Readers, actions: seq<Action>, run: nat, code: int, text: string, id: string)
    requires run in After(read, actions).running
    ensures var s := After(read, actions);
            var r, after := s.running[run], Step(read, s, Finish(run, code, text)).store;
            && after.generation == s.store.generation
            && (r.generation != s.store.generation ==> after == s.store)
            && (r.generation == s.store.generation ==>
                  var secret, vault := SecretOf(read, r.capture, code, text), VaultOf(read, r.capture, code, text);
                  && after.session == (if r.capture == Session && code == 0 && ExtractSession(text).Some?
                                       then ExtractSession(text) else s.store.session)
                  && after.secrets == (if secret.Some? then s.store.secrets[secret.value.0 := secret.value.1]
                                       else s.store.secrets)
                  && (vault.None? ==> after.items == s.store.items)
                  && (vault.Some? ==> Brings(read, s.store, vault.value, r.capture.Vault?, after, id)))
  {
    AlwaysInStep(read, actions);
    hide After, InStep, ExtractSession;
    var s := After(read, actions);
    if read.vault(text).Some? {
      LoadHolds(read.lower, s.store, read.vault(text).value, true, id);
      LoadHolds(read.lower, s.store, read.vault(text).value, false, id);
    }
    hide Loaded;
  }

  /** The item held under an id after a vault read: the one in the read, or the one there was if it merges. */
  ghost predicate Brings(read: Readers, before: Contents, vault: Object, replace: bool, after: Contents, id: string) {
    var key, item := LastOf(ListAt(vault, "sshKeys"), id), LastOf(ListAt(vault, "items"), id);
    && (id in after.items.entries <==> key.Some? || item.Some? || (!replace && id in before.items.entries))
    && (id in after.items.entries ==>
          after.items.entries[id] == if key.Some? then HeldOf(read.lower, id, key.value)
                                     else if item.Some? then HeldOf(read.lower, id, item.value)
                                     else before.items.entries[id])
  }

  /** A forget leaves exactly the secrets it names. */
  lemma ForgetLeaves(read: Readers, s: State, keep: set<string>, name: string)
    ensures var after := Step(read, s, Forget(keep)).store;
            && after.session == None && after.items == NO_ITEMS
            && (name in after.secrets <==> name in s.store.secrets && name in keep)
            && (name in after.secrets ==> after.secrets[name] == s.store.secrets[name])
  {
  }

  /** Copying the session key, and forgetting one secret or one item, change that one thing. */
  lemma EditLeaves(read: Readers, s: State, name: string, other: string)
    ensures var after := Step(read, s, HoldSession(name)).store;
            && after == s.store.(secrets := after.secrets)
            && (other in after.secrets <==> other in s.store.secrets || (other == name && s.store.session.Some?))
            && (other in after.secrets ==>
                  Some(after.secrets[other]) == if other == name && s.store.session.Some? then s.store.session
                                                else Some(s.store.secrets[other]))
    ensures var after := Step(read, s, ForgetSecret(name)).store;
            && after == s.store.(secrets := after.secrets)
            && (other in after.secrets <==> other in s.store.secrets && other != name)
            && (other in after.secrets ==> after.secrets[other] == s.store.secrets[other])
    ensures var after := Step(read, s, ForgetItem(name)).store;
            && after == s.store.(items := after.items)
            && (other in after.items.entries <==> other in s.store.items.entries && other != name)
            && (other in after.items.order <==> other in s.store.items.order && other != name)
            && (other in after.items.entries ==> after.items.entries[other] == s.store.items.entries[other])
  {
    RetainIsFilter(s.store.items.order, Other(name));
  }
}
