// Unsent drafts: written behind to a storage whose every call may fail
// (frontend/features/account/draftStorage.ts:5-49).
module DraftStorage {
  import opened Common

  /** `draftKey`: the account's directory and id, and the conversation; not the account's epoch. */
  datatype Key = Key(dataDir: string, aliId: string, conversation: string)

  datatype Draft = Draft(value: string, dirty: bool)

  /** What the storage holds and what the tab remembers. */
  datatype State = State(items: map<Key, string>, drafts: map<Key, Draft>)

  function Stored(items: map<Key, string>, k: Key): string {
    if k in items then items[k] else ""
  }

  function WithItem(items: map<Key, string>, k: Key, value: string): map<Key, string> {
    if value != "" then items[k := value] else items - {k}
  }

  function Persisted(s: State, k: Key, value: string): State {
    State(WithItem(s.items, k, value), s.drafts[k := Draft(value, false)])
  }

  predicate IsDirty(s: State, k: Key) {
    k in s.drafts && s.drafts[k].dirty
  }

  // ----- the three operations; `fails` says that their storage call raises -----

  function Saved(s: State, k: Key, value: string, fails: bool): State {
    var dirty := s.(drafts := s.drafts[k := Draft(value, true)]);
    if fails then dirty else Persisted(dirty, k, value)
  }

  function Loaded(s: State, k: Key, fails: bool): State {
    if fails then s
    else if IsDirty(s, k) then Persisted(s, k, s.drafts[k].value)
    else s.(drafts := s.drafts[k := Draft(Stored(s.items, k), false)])
  }

  function LoadResult(s: State, k: Key, fails: bool): string {
    if IsDirty(s, k) then s.drafts[k].value
    else if !fails then Stored(s.items, k)
    else if k in s.drafts then s.drafts[k].value
    else ""
  }

  /** What a flush makes of one key, `failing` being the keys whose write raises. */
  ghost predicate IsFlushed(s: State, s': State, failing: set<Key>) {
    && s'.drafts.Keys == s.drafts.Keys
    && forall k ::
         if IsDirty(s, k) && k !in failing
         then s'.drafts[k] == Draft(s.drafts[k].value, false) && Stored(s'.items, k) == s.drafts[k].value
         else (k in s.drafts ==> s'.drafts[k] == s.drafts[k]) && Stored(s'.items, k) == Stored(s.items, k)
  }

  class Tab {
    var items: map<Key, string>
    var drafts: map<Key, Draft>

    function View(): State
      reads this
    {
      State(items, drafts)
    }

    constructor (items: map<Key, string>)
      ensures View() == State(items, map[])
    {
      this.items, drafts := items, map[];
    }

    method Persist(k: Key, value: string, fails: bool) returns (raised: bool)
      modifies this
      ensures raised == fails
      ensures View() == if fails then old(View()) else Persisted(old(View()), k, value)
    {
      if fails {
        return true;
      }
      items := WithItem(items, k, value);
      drafts := drafts[k := Draft(value, false)];
      raised := false;
    }

    method SaveDraft(k: Key, value: string, fails: bool) returns (raised: bool)
      modifies this
      ensures raised == fails && View() == Saved(old(View()), k, value, fails)
    {
      drafts := drafts[k := Draft(value, true)];
      raised := Persist(k, value, fails);
    }

    method LoadDraft(k: Key, fails: bool) returns (value: string)
      modifies this
      ensures View() == Loaded(old(View()), k, fails) && value == LoadResult(old(View()), k, fails)
    {
      var cached := if k in drafts then Some(drafts[k]) else None;
      if cached.Some? && cached.value.dirty {
        var _ := Persist(k, cached.value.value, fails);
        return cached.value.value;
      }
      if fails {
        return if cached.Some? then cached.value.value else "";
      }
      value := Stored(items, k);
      drafts := drafts[k := Draft(value, false)];
    }

    method FlushDrafts(failing: set<Key>)
      modifies this
      ensures IsFlushed(old(View()), View(), failing)
    {
      var todo := drafts.Keys;
      while todo != {}
        invariant todo <= drafts.Keys == old(drafts).Keys
        invariant forall k | k in todo :: drafts[k] == old(drafts)[k]
        invariant IsFlushed(old(View()), View(), failing + todo)
        decreases todo
      {
        var k :| k in todo;
        ghost var before := View();
        if drafts[k].dirty {
          var _ := Persist(k, drafts[k].value, k in failing);
        }
        FlushOne(old(View()), before, View(), failing, todo, k);
        todo := todo - {k};
      }
      assert failing + todo == failing;
    }
  }

  lemma FlushOne(s: State, before: State, after: State, failing: set<Key>, todo: set<Key>, k: Key)
    requires IsFlushed(s, before, failing + todo) && k in todo && k in s.drafts && before.drafts[k] == s.drafts[k]
    requires after
          == if IsDirty(before, k) && k !in failing then Persisted(before, k, before.drafts[k].value) else before
    ensures IsFlushed(s, after, failing + (todo - {k}))
  {
  }

  // ----- what the tab sees -----

  /** The draft as the tab means it: an unsaved edit, a deletion included, before the storage. */
  function Visible(s: State, k: Key): string {
    if IsDirty(s, k) then s.drafts[k].value else Stored(s.items, k)
  }

  /** A remembered value that is not an unsaved edit is what the storage holds. */
  ghost predicate Agrees(s: State, k: Key) {
    k in s.drafts && !s.drafts[k].dirty ==> s.drafts[k].value == Stored(s.items, k)
  }

  lemma SaveShows(s: State, k: Key, value: string, fails: bool, other: Key)
    ensures Visible(Saved(s, k, value, fails), k) == value && Agrees(Saved(s, k, value, fails), k)
    ensures other != k ==> Visible(Saved(s, k, value, fails), other) == Visible(s, other)
    ensures other != k && Agrees(s, other) ==> Agrees(Saved(s, k, value, fails), other)
  {
  }

  lemma LoadShows(s: State, k: Key, fails: bool, other: Key)
    ensures Visible(Loaded(s, k, fails), other) == Visible(s, other)
    ensures Agrees(s, other) ==> Agrees(Loaded(s, k, fails), other)
    ensures Agrees(s, k) && (k in s.drafts || !fails) ==> LoadResult(s, k, fails) == Visible(s, k)
  {
  }

  /** A flush changes nothing that is seen, and afterwards only drafts whose write failed are unsaved. */
  lemma FlushTheorem(s: State, s': State, failing: set<Key>, k: Key)
    requires IsFlushed(s, s', failing)
    ensures Visible(s', k) == Visible(s, k) && (Agrees(s, k) ==> Agrees(s', k))
    ensures IsDirty(s', k) <==> IsDirty(s, k) && k in failing
    ensures !(IsDirty(s, k) && k !in failing) ==> Stored(s'.items, k) == Stored(s.items, k)
  {
  }

  // ----- what the storage holds -----

  /** A save whose write succeeds leaves its text in the storage, an empty text as no item, and nothing else to
      be saved; one whose write fails leaves the storage alone and the text to be saved. */
  lemma SaveStoresIff(s: State, k: Key, value: string, fails: bool, s': State)
    requires Step(s, Save(k, value, fails), s')
    ensures !fails ==> (k in s'.items <==> value != "") && (k in s'.items ==> s'.items[k] == value) && !IsDirty(s', k)
    ensures fails ==> s'.items == s.items && k in s'.drafts && s'.drafts[k] == Draft(value, true)
    ensures forall other | other != k ::
              (other in s'.items <==> other in s.items) && (other in s.items ==> s'.items[other] == s.items[other])
  {
  }

  /** A load writes an unsaved edit again, and stores it if that succeeds; it changes the storage in no other
      case. */
  lemma LoadStoresUnsaved(s: State, k: Key, fails: bool, s': State)
    requires Step(s, Load(k, fails), s')
    ensures IsDirty(s, k) && !fails ==> !IsDirty(s', k) && Stored(s'.items, k) == s.drafts[k].value
    ensures !IsDirty(s, k) || fails ==> s'.items == s.items && (IsDirty(s', k) <==> IsDirty(s, k))
    ensures forall other | other != k :: Stored(s'.items, other) == Stored(s.items, other)
  {
  }

  /** So what the tab saved last is in the storage after any later load, flush or save of it that succeeds, as
      long as no other tab writes it. */
  lemma SavedIsStored(ss: seq<State>, actions: seq<Action>, i: nat, j: nat)
    requires IsRun(ss, actions) && i < j < |actions| && actions[i].Save?
    requires forall m | i < m < j :: Leaves(actions[m], actions[i].key)
    requires || (actions[j].Load? && actions[j].key == actions[i].key && !actions[j].fails)
             || (actions[j].Flush? && actions[i].key !in actions[j].failing)
    ensures Stored(ss[j + 1].items, actions[i].key) == actions[i].value && !IsDirty(ss[j + 1], actions[i].key)
  {
    var k := actions[i].key;
    SavedStaysVisible(ss, actions, i, j);
    if actions[j].Load? {
      LoadStoresUnsaved(ss[j], k, false, ss[j + 1]);
    } else {
      FlushTheorem(ss[j], ss[j + 1], actions[j].failing, k);
    }
  }

  // ----- whole runs -----

  datatype Action =
    | Save(key: Key, value: string, fails: bool)
    | Load(key: Key, fails: bool)
    | Flush(failing: set<Key>)
    | Foreign(key: Key, value: string) // another tab writes the storage

  ghost predicate Step(s: State, a: Action, s': State) {
    match a
    case Save(k, value, fails) => s' == Saved(s, k, value, fails)
    case Load(k, fails) => s' == Loaded(s, k, fails)
    case Flush(failing) => IsFlushed(s, s', failing)
    case Foreign(k, value) => s' == s.(items := WithItem(s.items, k, value))
  }

  ghost predicate IsRun(ss: seq<State>, actions: seq<Action>) {
    |ss| == |actions| + 1 && forall i | 0 <= i < |actions| :: Step(ss[i], actions[i], ss[i + 1])
  }

  /** The action neither saves this draft nor writes it from another tab. */
  predicate Leaves(a: Action, k: Key) {
    !(a.Save? && a.key == k) && !(a.Foreign? && a.key == k)
  }

  lemma LeavesVisible(s: State, a: Action, s': State, k: Key)
    requires Step(s, a, s') && Leaves(a, k) && k in s.drafts && Agrees(s, k)
    ensures k in s'.drafts && Agrees(s', k) && Visible(s', k) == Visible(s, k)
  {
    match a
    case Save(other, value, fails) => SaveShows(s, other, value, fails, k);
    case Load(other, fails) => LoadShows(s, other, fails, k);
    case Flush(failing) => FlushTheorem(s, s', failing, k);
    case Foreign(_, _) =>
  }

  lemma {:induction false} SavedStaysVisible(ss: seq<State>, actions: seq<Action>, i: nat, j: nat)
    requires IsRun(ss, actions) && i < j <= |actions| && actions[i].Save?
    requires forall m | i < m < j :: Leaves(actions[m], actions[i].key)
    ensures actions[i].key in ss[j].drafts && Agrees(ss[j], actions[i].key)
    ensures Visible(ss[j], actions[i].key) == actions[i].value
  {
    var a := actions[i];
    if j == i + 1 {
      SaveShows(ss[i], a.key, a.value, a.fails, a.key);
    } else {
      SavedStaysVisible(ss, actions, i, j - 1);
      LeavesVisible(ss[j - 1], actions[j - 1], ss[j], a.key);
    }
  }

  /** Every load returns what the tab last saved, whichever storage calls failed in between, the load's
      own included. */
  lemma ReadYourWritesTheorem(ss: seq<State>, actions: seq<Action>, i: nat, j: nat)
    requires IsRun(ss, actions) && i < j < |actions| && actions[i].Save? && actions[j].Load?
    requires actions[j].key == actions[i].key
    requires forall m | i < m < j :: Leaves(actions[m], actions[i].key)
    ensures LoadResult(ss[j], actions[j].key, actions[j].fails) == actions[i].value
  {
    SavedStaysVisible(ss, actions, i, j);
    LoadShows(ss[j], actions[j].key, actions[j].fails, actions[j].key);
  }

  /** Another tab's write is seen by the next load that reaches the storage exactly when this tab has no
      unsaved edit of the draft, or one with the same text. */
  lemma ForeignIsSeenIff(s: State, k: Key, value: string)
    ensures LoadResult(s.(items := WithItem(s.items, k, value)), k, false) == value
       <==> !IsDirty(s, k) || s.drafts[k].value == value
  {
  }
}
