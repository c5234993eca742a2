/** The long-term profile store: `save_memory` validates the caller's user id and writes a
    right-biased shallow merge of the extracted profile into a key-value store. */
module LongTerm {
  import opened Wrappers
  import opened Models
  import Text

  /** A user id as it arrives in the runtime context: the `Context` dataclass declares an
      integer defaulting to 0, but nothing stops a caller from passing a string or `None`. */
  datatype UserId = IntId(n: int) | StrId(s: string) | NullId

  /** Python truthiness of a user id: non-zero, non-empty, not `None`. */
  predicate Truthy(u: UserId) {
    match u
    case IntId(n) => n != 0
    case StrId(s) => s != ""
    case NullId => false
  }

  /** The class attribute `Context.user_id`, which is also what every field-less context holds. */
  const DefaultUserId: UserId := IntId(0)

  /** The tool runtime's context: absent, present without a `user_id` attribute, or present with one. */
  datatype RuntimeContext = NoContext | NoUserIdAttribute | WithUserId(userId: UserId)

  /** A stored profile, and the `ExtractedMemory` dict the agent passes in: a JSON object whose
      values are strings or `null` (`None`). Every key the agent sends is kept, including one it
      sends as `None`. */
  type Profile = map<string, Option<string>>

  /** `str(user_id)`: the store's `get` and `put` turn every key into its text, so an id is filed
      under the decimal text of an integer, the string itself, or "None". */
  function IdText(u: UserId): (r: string)
    ensures u.StrId? ==> r == u.s
    ensures u.NullId? ==> r == "None"
    ensures u.IntId? && u.n >= 0 ==> Text.AllDigits(r) && |r| > 0 && Text.DigitsValue(r) == u.n
    ensures u.IntId? && u.n < 0 ==> |r| > 1 && r[0] == '-' && Text.AllDigits(r[1..]) && Text.DigitsValue(r[1..]) == -u.n
  {
    match u
    case IntId(n) => if n >= 0 then Text.DecimalString(n) else "-" + Text.DecimalString(-n)
    case StrId(s) => s
    case NullId => "None"
  }

  /** The store: (namespace, key text) to profile. */
  type Store = map<(seq<string>, string), Profile>

  /** The namespace every profile lives in. */
  const UsersNamespace: seq<string> := ["users"]

  /** The store key of a user's profile. */
  function ProfileKey(u: UserId): (seq<string>, string) {
    (UsersNamespace, IdText(u))
  }

  /** Two ids share one profile exactly when they print alike: the integer 5 and the string "5"
      do, and different integers never do. */
  lemma SharedKey(u: UserId, v: UserId)
    ensures ProfileKey(u) == ProfileKey(v) <==> IdText(u) == IdText(v)
    ensures u.IntId? && v.IntId? ==> (ProfileKey(u) == ProfileKey(v) <==> u == v)
    ensures u.IntId? && u.n >= 0 && v == StrId(Text.DecimalString(u.n)) ==> ProfileKey(u) == ProfileKey(v)
  {
    if u.IntId? && v.IntId? && IdText(u) == IdText(v) && u.n < 0 && v.n < 0 {
      assert IdText(u)[1..] == IdText(v)[1..];
    }
  }

  /** The only ids filed under the text "0", the key the prompts read, are the integer 0 and the
      string "0"; of these only the string is truthy. */
  lemma ZeroTextIds(u: UserId)
    ensures IdText(u) == "0" <==> u == IntId(0) || u == StrId("0")
    ensures IdText(u) == "0" && Truthy(u) <==> u == StrId("0")
  {
    if u.IntId? && IdText(u) == "0" && u.n >= 0 {
      assert Text.DigitsValue("0") == 0 by {
        assert "0"[..0] == "";
      }
    }
    if u == IntId(0) {
      assert IdText(u) == Text.DecimalString(0);
    }
  }

  /** Why `save_memory` refused to write. */
  datatype SaveError = MissingUserId | EmptyUserId

  /** The confirmation: an existing non-empty profile was updated, or a new one was stored;
      both name the user and the keys written. */
  datatype SaveReply = Updated(user: UserId, keys: set<string>) | StoredNew(user: UserId, keys: set<string>)

  /** The profile a user currently has, or the empty one. */
  function Existing(store: Store, u: UserId): Profile {
    if ProfileKey(u) in store then store[ProfileKey(u)] else map[]
  }

  /** What a successful write leaves: the user's profile holds the old keys and the written
      ones, written keys take the new values, unwritten old keys survive, no other entry changes,
      and the reply says "updated" exactly when the old profile was non-empty. */
  ghost predicate SavedAs(store: Store, memory: Profile, u: UserId, after: Store, reply: SaveReply) {
    var k := ProfileKey(u);
    var before := Existing(store, u);
    && k in after
    && after[k].Keys == before.Keys + memory.Keys
    && (forall key :: key in memory ==> after[k][key] == memory[key])
    && (forall key :: key in before && key !in memory ==> after[k][key] == before[key])
    && (forall other :: other != k ==> (other in after <==> other in store))
    && (forall other :: other != k && other in store ==> after[other] == store[other])
    && (reply.Updated? <==> |before| > 0)
    && reply.user == u && reply.keys == memory.Keys
  }

  /** `save_memory`. A missing context, one without `user_id`, or a falsy `user_id` raises and
      writes nothing. Otherwise the existing profile (if non-empty) is merged with the written
      dict, the written dict winning. */
  function SaveMemory(store: Store, memory: Profile, rt: RuntimeContext): (r: Result<(Store, SaveReply), SaveError>)
    ensures r.Failure? <==> !rt.WithUserId? || !Truthy(rt.userId)
    ensures !rt.WithUserId? ==> r == Failure(MissingUserId)
    ensures rt.WithUserId? && !Truthy(rt.userId) ==> r == Failure(EmptyUserId)
    ensures r.Success? ==> SavedAs(store, memory, rt.userId, r.value.0, r.value.1)
  {
    if !rt.WithUserId? then Failure(MissingUserId)
    else if !Truthy(rt.userId) then Failure(EmptyUserId)
    else
      var u := rt.userId;
      var k := ProfileKey(u);
      var before := Existing(store, u);
      if |before| > 0 then
        var reply := Updated(u, memory.Keys);
        OverrideSaved(store, memory, u, reply);
        Success((store[k := before + memory], reply))
      else
        var reply := StoredNew(u, memory.Keys);
        assert before + memory == memory;
        OverrideSaved(store, memory, u, reply);
        Success((store[k := memory], reply))
  }

  /** Putting the existing profile overridden by `memory` back under the user's key is a
      successful write, given a reply that names the user and keys and tells the two cases apart. */
  lemma OverrideSaved(store: Store, memory: Profile, u: UserId, reply: SaveReply)
    requires reply.user == u && reply.keys == memory.Keys
    requires reply.Updated? <==> |Existing(store, u)| > 0
    ensures SavedAs(store, memory, u, store[ProfileKey(u) := Existing(store, u) + memory], reply)
  {
    var k, before := ProfileKey(u), Existing(store, u);
    var after := store[k := before + memory];
    OverrideKeys(before, memory);
    UpdateKeepsOthers(store, k, before + memory);
  }

  /** Writing one entry of the store leaves every other entry as it was. */
  lemma UpdateKeepsOthers(store: Store, k: (seq<string>, string), v: Profile)
    ensures k in store[k := v] && store[k := v][k] == v
    ensures forall other :: other != k ==> (other in store[k := v] <==> other in store)
    ensures forall other :: other != k && other in store ==> store[k := v][other] == store[other]
  {
  }

  /** The keys and values of a right-biased merge. */
  lemma OverrideKeys(before: Profile, memory: Profile)
    ensures (before + memory).Keys == before.Keys + memory.Keys
    ensures forall key :: key in memory ==> (before + memory)[key] == memory[key]
    ensures forall key :: key in before && key !in memory ==> (before + memory)[key] == before[key]
  {
  }

  /** Whichever branch `save_memory` takes, the stored profile is the existing one (or the empty
      one) overridden by the written dict: the two branches differ only in their confirmation. */
  lemma StoredIsOverride(store: Store, memory: Profile, u: UserId)
    requires Truthy(u)
    ensures SaveMemory(store, memory, WithUserId(u)).Success?
    ensures SaveMemory(store, memory, WithUserId(u)).value.0 == store[ProfileKey(u) := Existing(store, u) + memory]
  {
    var before := Existing(store, u);
    if |before| == 0 {
      EmptyOverride(before, memory);
    }
  }

  /** Overriding the empty profile gives the written dict itself. */
  lemma EmptyOverride(before: Profile, memory: Profile)
    requires |before| == 0
    ensures before + memory == memory
  {
    assert before == map[];
  }

  /** Writing the same dict twice leaves the same store as writing it once. */
  lemma SaveIdempotent(store: Store, memory: Profile, u: UserId)
    requires Truthy(u)
    ensures var once := SaveMemory(store, memory, WithUserId(u)).value.0;
      SaveMemory(once, memory, WithUserId(u)).value.0 == once
  {
    var k, before := ProfileKey(u), Existing(store, u);
    var once := store[k := before + memory];
    StoredIsOverride(store, memory, u);
    StoredIsOverride(once, memory, u);
    ExistingAfterWrite(store, u, before + memory);
    OverrideTwice(before, memory);
    assert once[k := before + memory] == once;
  }

  /** Overriding twice with the same dict is overriding once. */
  lemma OverrideTwice(before: Profile, memory: Profile)
    ensures before + memory + memory == before + memory
  {
  }

  /** Right after a write, the user's profile is what was written. */
  lemma ExistingAfterWrite(store: Store, u: UserId, v: Profile)
    ensures Existing(store[ProfileKey(u) := v], u) == v
  {
  }

  /** Two writes for the same user compose as one override by the first dict and then the second. */
  lemma SaveTwice(store: Store, m1: Profile, m2: Profile, u: UserId)
    requires Truthy(u)
    ensures var first := SaveMemory(store, m1, WithUserId(u)).value.0;
      SaveMemory(first, m2, WithUserId(u)).value.0 == store[ProfileKey(u) := Existing(store, u) + m1 + m2]
  {
    var k, before := ProfileKey(u), Existing(store, u);
    var first := store[k := before + m1];
    StoredIsOverride(store, m1, u);
    StoredIsOverride(first, m2, u);
    ExistingAfterWrite(store, u, before + m1);
    UpdateTwice(store, k, before + m1, before + m1 + m2);
  }

  /** A second write to the same entry replaces the first. */
  lemma UpdateTwice(store: Store, k: (seq<string>, string), v1: Profile, v2: Profile)
    ensures store[k := v1][k := v2] == store[k := v2]
  {
  }

  /** The default id 0 is falsy, so the integer 0 never writes its entry; a successful write
      touches that entry exactly when the id prints as "0", that is, for the string "0", and then
      merges into the very profile the prompts read. */
  lemma DefaultKeyNeverWritten(store: Store, memory: Profile, rt: RuntimeContext)
    requires SaveMemory(store, memory, rt).Success?
    ensures var after := SaveMemory(store, memory, rt).value.0;
      var k := ProfileKey(DefaultUserId);
      && (IdText(rt.userId) != "0" ==>
            (k in after <==> k in store) && (k in store ==> after[k] == store[k]))
      && (IdText(rt.userId) == "0" ==>
            rt.userId == StrId("0") && k in after && after[k] == Existing(store, DefaultUserId) + memory)
  {
    ZeroTextIds(rt.userId);
    ZeroTextIds(DefaultUserId);
    if IdText(rt.userId) == "0" {
      StoredIsOverride(store, memory, rt.userId);
    }
  }

  /** A worked example of the shared text key: the string "0" is truthy, and writing a name under
      it stores that name under the key of the default id 0. */
  lemma ZeroStringReachesDefault(store: Store)
    requires ProfileKey(DefaultUserId) !in store
    ensures var r := SaveMemory(store, map["name" := Some("Alice")], WithUserId(StrId("0")));
      && r.Success?
      && r.value.0[ProfileKey(DefaultUserId)] == map["name" := Some("Alice")]
  {
    ZeroTextIds(DefaultUserId);
    ExampleDicts();
    EmptyOverride(Existing(store, StrId("0")), map["name" := Some("Alice")]);
    StoredIsOverride(store, map["name" := Some("Alice")], StrId("0"));
  }

  /** A key the agent sends as `None` is present in the dict, so it overwrites the stored value:
      writing `{"age": None}` erases a stored age while every other field survives. */
  lemma NoneOverwrites(store: Store, u: UserId, memory: Profile, key: string)
    requires Truthy(u) && key in memory && memory[key] == None
    ensures var after := SaveMemory(store, memory, WithUserId(u)).value.0;
      && key in after[ProfileKey(u)] && after[ProfileKey(u)][key] == None
      && forall other :: other in Existing(store, u) && other !in memory ==>
           other in after[ProfileKey(u)] && after[ProfileKey(u)][other] == Existing(store, u)[other]
  {
    StoredIsOverride(store, memory, u);
    OverrideKeys(Existing(store, u), memory);
  }

  /** A worked example: a name saved first survives a later write of only the age. */
  lemma NameThenAge(store: Store)
    requires ProfileKey(IntId(7)) !in store
    ensures var first := SaveMemory(store, map["name" := Some("Alice")], WithUserId(IntId(7)));
      && first.Success? && first.value.1 == StoredNew(IntId(7), {"name"})
      && var second := SaveMemory(first.value.0, map["age" := Some("30")], WithUserId(IntId(7)));
      && second.Success? && second.value.1 == Updated(IntId(7), {"age"})
      && second.value.0[ProfileKey(IntId(7))] == map["name" := Some("Alice"), "age" := Some("30")]
  {
    var u := IntId(7);
    var name: Profile := map["name" := Some("Alice")];
    var age: Profile := map["age" := Some("30")];
    ExampleDicts();
    EmptyOverride(Existing(store, u), name);
    var first := store[ProfileKey(u) := name];
    StoredIsOverride(store, name, u);
    ExistingAfterWrite(store, u, name);
    StoredIsOverride(first, age, u);
  }

  /** The two dicts of the example, their keys and their merge. */
  lemma ExampleDicts()
    ensures map["name" := Some("Alice")].Keys == {"name"}
    ensures map["age" := Some("30")].Keys == {"age"}
    ensures |map["name" := Some("Alice")]| == 1
    ensures map["name" := Some("Alice")] + map["age" := Some("30")] == map["name" := Some("Alice"), "age" := Some("30")]
  {
  }

  /** Apply `save_memory` to each (dict, context) in turn; a refused write leaves the store as it was. */
  function SaveAll(store: Store, writes: seq<(Profile, RuntimeContext)>): Store
    decreases |writes|
  {
    if |writes| == 0 then store
    else
      var r := SaveMemory(store, writes[0].0, writes[0].1);
      SaveAll(if r.Success? then r.value.0 else store, writes[1..])
  }

  /** A write whose context id prints as "0". */
  predicate WritesZeroText(w: (Profile, RuntimeContext)) {
    w.1.WithUserId? && IdText(w.1.userId) == "0"
  }

  /** However many writes are made, none under an id printing as "0", the entry under the default
      id 0 stays as it was. */
  lemma {:induction false} SaveAllKeepsDefault(store: Store, writes: seq<(Profile, RuntimeContext)>)
    requires forall i :: 0 <= i < |writes| ==> !WritesZeroText(writes[i])
    ensures var k := ProfileKey(DefaultUserId);
      (k in SaveAll(store, writes) <==> k in store)
      && (k in store ==> SaveAll(store, writes)[k] == store[k])
    decreases |writes|
  {
    if |writes| > 0 {
      var r := SaveMemory(store, writes[0].0, writes[0].1);
      if r.Success? {
        DefaultKeyNeverWritten(store, writes[0].0, writes[0].1);
      }
      assert !WritesZeroText(writes[0]);
      SaveAllKeepsDefault(if r.Success? then r.value.0 else store, writes[1..]);
    }
  }
}
