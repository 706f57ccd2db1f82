/** The camera routines (doAlphaCamera*) on the shared objects: each is one atomic camera turn of the world. */
module CameraTasks {
  import opened Features
  import opened SetPointStores
  import opened MemoryValues
  import opened Transactions
  import opened ServicePasses
  import opened Messages
  import opened Traces
  import opened Worlds

  /** What the camera contributes to one routine: the reply to a command, and the report of a read that is due. */
  datatype Contact = Contact(reply: Reply, due: bool, report: seq<string>)

  function PolledValue(f: Feature, c: Contact): Option<int> {
    if c.due then ReportedValue(f, c.report) else None
  }

  function Heard(contacts: map<Feature, Contact>): Input {
    Input([], map[],
          map f | f in contacts :: AnswerOf(f, contacts[f].reply),
          map f | f in contacts && PolledValue(f, contacts[f]).Some? :: PolledValue(f, contacts[f]).value,
          {}, {}, 0)
  }

  /** A world of its own for the objects a routine works on. */
  function Bench(s: Store, cache: Cache): World {
    World(s, cache, NEW_FRAME, Silence)
  }

  /** The object and the store hold what the world w says. */
  ghost predicate Holds(w: World, f: Feature, mem: MemoryValue)
    reads mem
  {
    mem.Value() == EntryOf(w.cache, f)
  }

  /** A transaction on the objects is a transaction of the world. */
  method TransactOn(ghost w: World, f: Feature, mem: MemoryValue, store: SetPointStore, cam: Camera, reply: Reply)
    requires store.Valid() && store.Value() == w.store && Holds(w, f, mem)
    modifies store, mem, cam
    ensures store.Valid()
    ensures store.Value() == Transact(w, f, AnswerOf(f, reply)).store
        && Holds(Transact(w, f, AnswerOf(f, reply)), f, mem)
  {
    var _, _ := SetSonyCamData(f, mem, store, cam, reply, 100, 50, 1, 1);
  }

  /** Read the camera if the feature's timestamp is old enough. */
  method PollOn(ghost w: World, ghost polls: Readings, f: Feature, mem: MemoryValue, c: Contact)
    requires Holds(w, f, mem) && Reading(polls, f) == PolledValue(f, c)
    modifies mem
    ensures Holds(Poll(w, f, polls), f, mem)
  {
    if c.due {
      var _ := GetSonyCamData(f, mem, c.report);
    }
  }

  lemma TurnOfOne(w: World, g: Group, f: Feature, input: Input)
    requires Members(g) == [f]
    ensures CameraTurn(w, g, input)
            == WithRunning(Poll(Transact(WithRunning(w, RunningCode(g)), f, Answer(input, f)), f, input.polls),
                FUNC_IDLE)
  {
    var w1 := Transact(WithRunning(w, RunningCode(g)), f, Answer(input, f));
    assert TransactAll(WithRunning(w, RunningCode(g)), [f], input) == TransactAll(w1, [], input);
    assert PollAll(w1, [f], input.polls) == PollAll(Poll(w1, f, input.polls), [], input.polls);
  }

  lemma TurnOfTwo(w: World, input: Input)
    ensures var w1 := Transact(WithRunning(w, RunningCode(GFocus)), Focus, Answer(input, Focus));
            var w2 := Transact(w1, FocusArea, Answer(input, FocusArea));
            CameraTurn(w, GFocus, input)
            == WithRunning(Poll(Poll(w2, Focus, input.polls), FocusArea, input.polls), FUNC_IDLE)
  {
    var w0 := WithRunning(w, RunningCode(GFocus));
    var w1 := Transact(w0, Focus, Answer(input, Focus));
    var w2 := Transact(w1, FocusArea, Answer(input, FocusArea));
    var (fs, polls) := (Members(GFocus), input.polls);
    assert fs[1..] == [FocusArea];
    assert TransactAll(w0, fs, input) == TransactAll(w1, [FocusArea], input) == TransactAll(w2, [], input);
    var w3 := Poll(w2, Focus, polls);
    assert PollAll(w2, fs, polls) == PollAll(w3, [FocusArea], polls) == PollAll(Poll(w3, FocusArea, polls), [], polls);
  }

  lemma OthersKeepEntry(w: World, f: Feature, a: CameraAnswer, polls: Readings, g: Feature)
    requires g != f
    ensures EntryOf(Transact(w, f, a).cache, g) == EntryOf(w.cache, g) == EntryOf(Poll(w, f, polls).cache, g)
  {
  }

  lemma HeardOf(contacts: map<Feature, Contact>, f: Feature)
    requires f in contacts
    ensures Answer(Heard(contacts), f) == AnswerOf(f, contacts[f].reply)
    ensures Reading(Heard(contacts).polls, f) == PolledValue(f, contacts[f])
  {
  }

  /** A routine for one feature. */
  method DoAlphaCamera(g: Group, f: Feature, mem: MemoryValue, store: SetPointStore, cam: Camera, c: Contact)
    requires store.Valid() && Members(g) == [f]
    modifies store, mem, cam
    ensures store.Valid()
    ensures var w := CameraTurn(Bench(old(store.Value()), map[f := old(mem.Value())]), g, Heard(map[f := c]));
            store.Value() == w.store && mem.Value() == EntryOf(w.cache, f)
  {
    ghost var w, input := Bench(store.Value(), map[f := mem.Value()]), Heard(map[f := c]);
    TurnOfOne(w, g, f, input);
    HeardOf(map[f := c], f);
    store.mpState := RunningCode(g);
    ghost var w0 := WithRunning(w, RunningCode(g));
    TransactOn(w0, f, mem, store, cam, c.reply);
    PollOn(Transact(w0, f, Answer(input, f)), input.polls, f, mem, c);
    store.mpState := FUNC_IDLE;
  }

  /** The routine for the focus pair: both transactions, then both reads. */
  method DoAlphaCameraFocusData(focus: MemoryValue, area: MemoryValue, store: SetPointStore, cam: Camera,
                                c: Contact, d: Contact)
    requires store.Valid() && focus != area
    modifies store, focus, area, cam
    ensures store.Valid()
    ensures var w := CameraTurn(Bench(old(store.Value()), map[Focus := old(focus.Value()),
        FocusArea := old(area.Value())]),
                                GFocus, Heard(map[Focus := c, FocusArea := d]));
            store.Value() == w.store && focus.Value() == EntryOf(w.cache, Focus)
                && area.Value() == EntryOf(w.cache, FocusArea)
  {
    ghost var contacts := map[Focus := c, FocusArea := d];
    ghost var input := Heard(contacts);
    ghost var w := Bench(store.Value(), map[Focus := focus.Value(), FocusArea := area.Value()]);
    TurnOfTwo(w, input);
    HeardOf(contacts, Focus);
    HeardOf(contacts, FocusArea);
    store.mpState := RunningCode(GFocus);
    ghost var w0 := WithRunning(w, RunningCode(GFocus));
    ghost var w1 := Transact(w0, Focus, Answer(input, Focus));
    ghost var w2 := Transact(w1, FocusArea, Answer(input, FocusArea));
    OthersKeepEntry(w0, Focus, Answer(input, Focus), input.polls, FocusArea);
    OthersKeepEntry(w1, FocusArea, Answer(input, FocusArea), input.polls, Focus);
    OthersKeepEntry(w2, Focus, Unusable, input.polls, FocusArea);
    OthersKeepEntry(Poll(w2, Focus, input.polls), FocusArea, Unusable, input.polls, Focus);
    TransactOn(w0, Focus, focus, store, cam, c.reply);
    TransactOn(w1, FocusArea, area, store, cam, d.reply);
    PollOn(w2, input.polls, Focus, focus, c);
    PollOn(Poll(w2, Focus, input.polls), input.polls, FocusArea, area, d);
    store.mpState := FUNC_IDLE;
  }
}
