/** The sample groups, the image buffers they point at, the group pool and the two
    V4L2 driver queues (image/video_context.c, image/sample_factory.c, image/video.c).

    A pointer to a group or to a buffer is its index in the array it was allocated
    in. Buffers 0..16 belong to video channel 1, 17..23 to channel 2, and 24..55 are
    the placeholder buffers of the overclock interrupt. */
module GroupStore {

  const GROUPS: nat := 32
  const VID1_BUF_MAX: nat := 17
  const VID2_BUF_MAX: nat := 7
  const VP_BUFS: nat := VID1_BUF_MAX + VID2_BUF_MAX
  const OVERCLOCK_ARRAY_MAX: nat := 32
  const BUFS: nat := VP_BUFS + OVERCLOCK_ARRAY_MAX
  const U32_MAX: nat := 0xFFFF_FFFF

  datatype Channels = Only1 | Only2 | Both

  /** `payload` stands for the decision and calc_result bytes. */
  datatype SampleInfo = SampleInfo(count: nat, kickPos: nat, algoTime: nat, wheel: nat, payload: nat, flag: nat)

  const ZERO_INFO := SampleInfo(0, 0, 0, 0, 0, 0)

  /** `image[2]` and `image_num` of the C structure are kept as three fields. */
  datatype Group = Group(info: SampleInfo, image0: nat, image1: nat, imageNum: nat, source: int)

  /** `stray` is history: the channel buffers whose last reference was dropped
      without handing them back to the driver. */
  datatype Store = Store(
    channels: Channels, rCount: seq<nat>, group: seq<Group>,
    pool: seq<nat>, locked: bool,
    queue1: multiset<nat>, queue2: multiset<nat>,
    ovIndex: nat, stray: set<nat>)

  predicate Sized(st: Store) {
    |st.rCount| == BUFS && |st.group| == GROUPS && st.ovIndex < OVERCLOCK_ARRAY_MAX
  }

  function Images(gr: Group): seq<nat> {
    if gr.imageNum == 1 then [gr.image0] else if gr.imageNum == 2 then [gr.image0, gr.image1] else []
  }

  // ---------------------------------------------------------------- operations

  function Dec32(n: nat): nat {
    if n == 0 then U32_MAX else n - 1
  }

  /** One locked half of video_context_release: drop a reference and, on zero, give
      a camera image back to the driver queue of channel `video`. */
  function DropRef(st: Store, img: nat, video: nat, source: int): Store
    requires img < |st.rCount|
  {
    var n := Dec32(st.rCount[img]);
    var st1 := st.(rCount := st.rCount[img := n]);
    if n != 0 then st1
    else if source != 0 then
      if img < VP_BUFS then st1.(stray := st1.stray + {img}) else st1
    else if video == 1 then st1.(queue1 := st1.queue1 + multiset{img})
    else st1.(queue2 := st1.queue2 + multiset{img})
  }

  /** The channel a one-image group releases to: vid1_valid is tested first. */
  function SoleVideo(ch: Channels): nat {
    if ch == Only2 then 2 else 1
  }

  predicate Pointers(st: Store, g: nat) {
    && Sized(st) && g < GROUPS
    && (st.group[g].imageNum >= 1 ==> st.group[g].image0 < BUFS)
    && (st.group[g].imageNum >= 2 ==> st.group[g].image1 < BUFS)
  }

  /** video_context_release up to the decision to recycle: the new store, and
      whether sample_factory_recycle is reached. */
  function ReleaseImages(st: Store, g: nat): (Store, bool)
    requires Pointers(st, g)
  {
    var gr := st.group[g];
    if gr.imageNum == 1 then
      var s1 := DropRef(st, gr.image0, SoleVideo(st.channels), gr.source);
      (s1, s1.rCount[gr.image0] == 0)
    else if gr.imageNum == 2 then
      var s1 := DropRef(st, gr.image0, 1, gr.source);
      var s2 := DropRef(s1, gr.image1, 2, gr.source);
      (s2, s2.rCount[gr.image0] == 0 && s2.rCount[gr.image1] == 0)
    else (st, false)
  }

  /** A release that has to recycle blocks for ever on a lock that was left held. */
  predicate CanRelease(st: Store, g: nat)
    requires Pointers(st, g)
  {
    ReleaseImages(st, g).1 ==> !st.locked
  }

  function Recycle(st: Store, g: nat): Store {
    st.(pool := st.pool + [g])
  }

  function Release(st: Store, g: nat): Store
    requires Pointers(st, g)
  {
    var (s1, last) := ReleaseImages(st, g);
    if last then Recycle(s1, g) else s1
  }

  /** What dropping a reference never touches. */
  predicate SameFrame(st: Store, st': Store) {
    && st'.group == st.group && st'.channels == st.channels && st'.locked == st.locked
    && st'.ovIndex == st.ovIndex && |st'.rCount| == |st.rCount|
  }

  lemma DropKeepsFrame(st: Store, img: nat, video: nat, source: int)
    requires img < |st.rCount|
    ensures SameFrame(st, DropRef(st, img, video, source))
  {}

  lemma ReleaseKeepsGroups(st: Store, g: nat)
    requires Pointers(st, g)
    ensures Release(st, g).group == st.group && Release(st, g).channels == st.channels
    ensures Release(st, g).locked == st.locked && Sized(Release(st, g))
  {
    var gr := st.group[g];
    if gr.imageNum == 1 {
      DropKeepsFrame(st, gr.image0, SoleVideo(st.channels), gr.source);
    } else if gr.imageNum == 2 {
      DropKeepsFrame(st, gr.image0, 1, gr.source);
      DropKeepsFrame(DropRef(st, gr.image0, 1, gr.source), gr.image1, 2, gr.source);
    }
  }

  /** sample_factory_produce on a pool that is not empty. */
  function TakeGroup(st: Store): Store
    requires Sized(st) && st.pool != [] && st.pool[0] < GROUPS
  {
    var g := st.pool[0];
    st.(pool := st.pool[1..], group := st.group[g := st.group[g].(info := ZERO_INFO)])
  }

  function SetInfo(st: Store, g: nat, info: SampleInfo): Store
    requires Sized(st) && g < GROUPS
  {
    st.(group := st.group[g := st.group[g].(info := info)])
  }

  /** The buffers the driver would hand out for the first image. */
  function FirstQueue(st: Store): multiset<nat> {
    if st.channels == Only2 then st.queue2 else st.queue1
  }

  function UseFirst(st: Store, b: nat): Store {
    if st.channels == Only2 then st.(queue2 := st.queue2 - multiset{b})
    else st.(queue1 := st.queue1 - multiset{b})
  }

  /** Single channel: request the image and set its count. */
  function TakeSole(st: Store, g: nat, b: nat): Store
    requires Sized(st) && g < GROUPS && b < BUFS
  {
    UseFirst(st, b).(group := st.group[g := st.group[g].(image0 := b, imageNum := 1)],
                     rCount := st.rCount[b := 3])
  }

  /** Two channels: request the image of channel 1. */
  function TakeFirst(st: Store, g: nat, b: nat): Store
    requires Sized(st) && g < GROUPS
  {
    UseFirst(st, b).(group := st.group[g := st.group[g].(image0 := b)])
  }

  /** Two channels, reset in progress: the image goes straight back. */
  function GiveBackFirst(st: Store, g: nat): Store
    requires Sized(st) && g < GROUPS
  {
    st.(queue1 := st.queue1 + multiset{st.group[g].image0})
  }

  /** Two channels: request the image of channel 2 and set both counts. */
  function TakeSecond(st: Store, g: nat, b: nat): Store
    requires Sized(st) && g < GROUPS && b < BUFS && st.group[g].image0 < BUFS
  {
    st.(queue2 := st.queue2 - multiset{b},
        group := st.group[g := st.group[g].(image1 := b, imageNum := 2)],
        rCount := st.rCount[st.group[g].image0 := 3][b := 3])
  }

  function MarkCamera(st: Store, g: nat): Store
    requires Sized(st) && g < GROUPS
  {
    st.(group := st.group[g := st.group[g].(source := 0)])
  }

  /** The overclock interrupt fills its group with the next placeholder buffer. */
  function FillOverclock(st: Store, g: nat, info: SampleInfo): Store
    requires Sized(st) && g < GROUPS
  {
    var i := if st.ovIndex + 1 >= OVERCLOCK_ARRAY_MAX then 0 else st.ovIndex + 1;
    var b := VP_BUFS + i;
    st.(ovIndex := i,
        group := st.group[g := Group(info, b, st.group[g].image1, 1, 1)],
        rCount := st.rCount[b := 1])
  }

  // ---------------------------------------------------------------- invariant

  /** What a group is being used for. `Owed(n, camera)`: shared by routes that owe
      n releases in all; `camera` says that image_source was set to 0. */
  datatype Phase = Free | Raw | Half | Owed(n: nat, camera: bool) | Overclock | Dropped

  ghost predicate NoDup(s: seq<nat>) {
    forall i, j :: 0 <= i < j < |s| ==> s[i] != s[j]
  }

  ghost predicate PhasesSized(st: Store, ph: seq<Phase>) {
    Sized(st) && |ph| == GROUPS
  }

  ghost predicate PoolOk(st: Store, ph: seq<Phase>)
    requires PhasesSized(st, ph)
  {
    && NoDup(st.pool)
    && (forall i :: 0 <= i < |st.pool| ==> st.pool[i] < GROUPS && ph[st.pool[i]] == Free)
    && (forall g :: 0 <= g < GROUPS && ph[g] == Free ==> g in st.pool)
  }

  predicate CameraImages(ch: Channels, gr: Group) {
    match ch
    case Only1 => gr.imageNum == 1 && gr.image0 < VID1_BUF_MAX
    case Only2 => gr.imageNum == 1 && VID1_BUF_MAX <= gr.image0 < VP_BUFS
    case Both => gr.imageNum == 2 && gr.image0 < VID1_BUF_MAX && VID1_BUF_MAX <= gr.image1 < VP_BUFS
  }

  ghost predicate GroupOk(st: Store, p: Phase, g: nat)
    requires Sized(st) && g < GROUPS
  {
    var gr := st.group[g];
    match p
    case Owed(n, camera) =>
      && 1 <= n <= 3 && CameraImages(st.channels, gr)
      && st.rCount[gr.image0] == n && (gr.imageNum == 2 ==> st.rCount[gr.image1] == n)
      && (camera ==> gr.source == 0)
    case Half => st.channels == Both && gr.image0 < VID1_BUF_MAX
    case Overclock =>
      gr.imageNum == 1 && VP_BUFS <= gr.image0 < BUFS && st.rCount[gr.image0] == 1 && gr.source == 1
    case _ => true
  }

  /** Group g, in phase p, keeps channel buffer b away from its driver queue. */
  ghost predicate Holds(gr: Group, p: Phase, b: nat) {
    match p
    case Owed(_, _) => b in Images(gr)
    case Half => b == gr.image0
    case _ => false
  }

  function Queued(st: Store, b: nat): nat {
    st.queue1[b] + st.queue2[b]
  }

  predicate InUse(ch: Channels, b: nat) {
    match ch
    case Only1 => b < VID1_BUF_MAX
    case Only2 => VID1_BUF_MAX <= b < VP_BUFS
    case Both => b < VP_BUFS
  }

  /** Where the channel buffer b is: in its own driver queue once, held by one group,
      or stray; never in two places. */
  ghost predicate BufferOk(st: Store, ph: seq<Phase>, b: nat)
    requires PhasesSized(st, ph)
  {
    && (st.queue1[b] > 0 ==> b < VID1_BUF_MAX)
    && (st.queue2[b] > 0 ==> VID1_BUF_MAX <= b < VP_BUFS)
    && Queued(st, b) <= 1
    && (forall g :: 0 <= g < GROUPS && Holds(st.group[g], ph[g], b) ==> Queued(st, b) == 0 && b !in st.stray)
    && (b in st.stray ==> Queued(st, b) == 0 && InUse(st.channels, b))
    && (InUse(st.channels, b) && Queued(st, b) == 0 && b !in st.stray ==>
          exists g :: 0 <= g < GROUPS && Holds(st.group[g], ph[g], b))
    && (!InUse(st.channels, b) ==> Queued(st, b) == 0)
  }

  ghost predicate Exclusive(st: Store, ph: seq<Phase>)
    requires PhasesSized(st, ph)
  {
    && (forall g, h, b :: 0 <= g < GROUPS && 0 <= h < GROUPS && g != h && Holds(st.group[g], ph[g], b)
                          ==> !Holds(st.group[h], ph[h], b))
    && (forall g, h :: 0 <= g < h < GROUPS && ph[g] == Overclock ==> ph[h] != Overclock)
  }

  ghost predicate StoreInv(st: Store, ph: seq<Phase>) {
    && PhasesSized(st, ph)
    && PoolOk(st, ph)
    && (forall g :: 0 <= g < GROUPS ==> GroupOk(st, ph[g], g))
    && (forall b :: 0 <= b ==> BufferOk(st, ph, b))
    && Exclusive(st, ph)
  }

  // ---------------------------------------------------------------- preservation

  /** A step that leaves queues and holders alone keeps every buffer where it is. */
  lemma SameHolders(st: Store, ph: seq<Phase>, st': Store, ph': seq<Phase>)
    requires PhasesSized(st, ph) && PhasesSized(st', ph') && Exclusive(st, ph)
    requires forall b :: 0 <= b ==> BufferOk(st, ph, b)
    requires st.queue1 == st'.queue1 && st.queue2 == st'.queue2 && st.stray == st'.stray
    requires st.channels == st'.channels
    requires forall g, b :: 0 <= g < GROUPS ==> (Holds(st.group[g], ph[g], b) <==> Holds(st'.group[g], ph'[g], b))
    ensures forall b :: 0 <= b ==> BufferOk(st', ph', b)
    ensures forall g, h, b :: 0 <= g < GROUPS && 0 <= h < GROUPS && g != h && Holds(st'.group[g], ph'[g], b)
                              ==> !Holds(st'.group[h], ph'[h], b)
  {
    forall b | 0 <= b ensures BufferOk(st', ph', b) {
      assert BufferOk(st, ph, b);
    }
  }

  lemma TakeGroupKeeps(st: Store, ph: seq<Phase>)
    requires StoreInv(st, ph) && st.pool != []
    ensures var g := st.pool[0]; g < GROUPS && ph[g] == Free && StoreInv(TakeGroup(st), ph[g := Raw])
  {
    var g := st.pool[0];
    var st' := TakeGroup(st);
    var ph' := ph[g := Raw];
    assert st'.pool == st.pool[1..];
    assert PoolOk(st', ph') by {
      forall h | 0 <= h < GROUPS && ph'[h] == Free ensures h in st'.pool {
        var i :| 0 <= i < |st.pool| && st.pool[i] == h;
        assert st'.pool[i - 1] == h;
      }
    }
    SameHolders(st, ph, st', ph');
  }

  lemma LockKeeps(st: Store, ph: seq<Phase>)
    requires StoreInv(st, ph)
    ensures StoreInv(st.(locked := true), ph)
  {
    forall g | 0 <= g < GROUPS ensures GroupOk(st.(locked := true), ph[g], g) {
      assert GroupOk(st, ph[g], g);
    }
    SameHolders(st, ph, st.(locked := true), ph);
  }

  lemma NotHeld(st: Store, ph: seq<Phase>, b: nat)
    requires StoreInv(st, ph) && Queued(st, b) > 0
    ensures forall h :: 0 <= h < GROUPS ==> !Holds(st.group[h], ph[h], b)
  {
    assert BufferOk(st, ph, b);
  }

  /** Buffer b went from its queue to group g, which held nothing but b2 (if any). */
  lemma MovedBuffer(st: Store, ph: seq<Phase>, st': Store, ph': seq<Phase>, g: nat, b: nat)
    requires StoreInv(st, ph) && PhasesSized(st', ph') && g < GROUPS
    requires Queued(st, b) > 0 && Queued(st', b) == 0
    requires st'.stray == st.stray && st'.channels == st.channels
    requires forall c: nat :: c != b ==> st'.queue1[c] == st.queue1[c] && st'.queue2[c] == st.queue2[c]
    requires forall h :: 0 <= h < GROUPS && h != g ==> st'.group[h] == st.group[h] && ph'[h] == ph[h]
    requires forall c :: Holds(st'.group[g], ph'[g], c) <==> c == b || Holds(st.group[g], ph[g], c)
    ensures forall c :: 0 <= c ==> BufferOk(st', ph', c)
    ensures forall h, k, c :: 0 <= h < GROUPS && 0 <= k < GROUPS && h != k && Holds(st'.group[h], ph'[h], c)
                              ==> !Holds(st'.group[k], ph'[k], c)
  {
    NotHeld(st, ph, b);
    forall c | 0 <= c ensures BufferOk(st', ph', c) {
      assert BufferOk(st, ph, c);
      if c == b {
        assert Holds(st'.group[g], ph'[g], b);
      } else if InUse(st.channels, c) && Queued(st, c) == 0 && c !in st.stray {
        var h :| 0 <= h < GROUPS && Holds(st.group[h], ph[h], c);
        assert Holds(st'.group[h], ph'[h], c);
      }
    }
  }

  lemma TakeSoleKeeps(st: Store, ph: seq<Phase>, g: nat, b: nat)
    requires StoreInv(st, ph) && g < GROUPS && ph[g] == Raw
    requires st.channels != Both && FirstQueue(st)[b] > 0
    ensures b < VP_BUFS && StoreInv(TakeSole(st, g, b), ph[g := Owed(3, false)])
  {
    assert BufferOk(st, ph, b);
    var st' := TakeSole(st, g, b);
    var ph' := ph[g := Owed(3, false)];
    NotHeld(st, ph, b);
    MovedBuffer(st, ph, st', ph', g, b);
  }

  lemma TakeFirstKeeps(st: Store, ph: seq<Phase>, g: nat, b: nat)
    requires StoreInv(st, ph) && g < GROUPS && ph[g] == Raw
    requires st.channels == Both && st.queue1[b] > 0
    ensures StoreInv(TakeFirst(st, g, b), ph[g := Half])
  {
    assert BufferOk(st, ph, b);
    var st' := TakeFirst(st, g, b);
    var ph' := ph[g := Half];
    MovedBuffer(st, ph, st', ph', g, b);
  }

  /** Two groups that are owed releases share no image. */
  lemma OthersImages(st: Store, ph: seq<Phase>, g: nat, h: nat)
    requires StoreInv(st, ph) && g < GROUPS && h < GROUPS
    ensures GroupOk(st, ph[h], h)
    ensures h != g ==> forall b :: Holds(st.group[g], ph[g], b) ==> !Holds(st.group[h], ph[h], b)
    ensures ph[h].Owed? ==> Holds(st.group[h], ph[h], st.group[h].image0)
    ensures ph[h].Owed? && st.group[h].imageNum == 2 ==> Holds(st.group[h], ph[h], st.group[h].image1)
  {
    assert GroupOk(st, ph[h], h);
    if ph[h].Owed? {
      assert st.group[h].image0 == Images(st.group[h])[0];
      if st.group[h].imageNum == 2 {
        assert st.group[h].image1 == Images(st.group[h])[1];
      }
    }
  }

  lemma TakeSecondKeeps(st: Store, ph: seq<Phase>, g: nat, b: nat)
    requires StoreInv(st, ph) && g < GROUPS && ph[g] == Half && st.queue2[b] > 0
    ensures b < VP_BUFS && st.group[g].image0 < VP_BUFS
    ensures StoreInv(TakeSecond(st, g, b), ph[g := Owed(3, false)])
  {
    assert BufferOk(st, ph, b);
    assert GroupOk(st, ph[g], g);
    var st' := TakeSecond(st, g, b);
    var ph' := ph[g := Owed(3, false)];
    NotHeld(st, ph, b);
    assert Holds(st.group[g], ph[g], st.group[g].image0);
    MovedBuffer(st, ph, st', ph', g, b);
    forall h | 0 <= h < GROUPS ensures GroupOk(st', ph'[h], h) {
      OthersImages(st, ph, g, h);
    }
  }

  /** Group g gave up what it held: `back` returned to the queues, `astray` did not. */
  lemma Surrendered(st: Store, ph: seq<Phase>, st': Store, ph': seq<Phase>, g: nat, back: set<nat>, astray: set<nat>)
    requires StoreInv(st, ph) && PhasesSized(st', ph') && g < GROUPS
    requires st'.channels == st.channels && st'.stray == st.stray + astray && back !! astray
    requires forall c: nat :: c in back || c in astray <==> Holds(st.group[g], ph[g], c)
    requires forall c: nat :: c !in back ==> st'.queue1[c] == st.queue1[c] && st'.queue2[c] == st.queue2[c]
    requires forall c: nat :: c in back ==> st'.queue1[c] == st.queue1[c] + (if c < VID1_BUF_MAX then 1 else 0)
    requires forall c: nat :: c in back ==> st'.queue2[c] == st.queue2[c] + (if c < VID1_BUF_MAX then 0 else 1)
    requires forall c: nat :: c in back || c in astray ==> InUse(st.channels, c)
    requires forall h :: 0 <= h < GROUPS && h != g ==> st'.group[h] == st.group[h] && ph'[h] == ph[h]
    requires forall c :: !Holds(st'.group[g], ph'[g], c)
    ensures forall c :: 0 <= c ==> BufferOk(st', ph', c)
    ensures forall h, k, c :: 0 <= h < GROUPS && 0 <= k < GROUPS && h != k && Holds(st'.group[h], ph'[h], c)
                              ==> !Holds(st'.group[k], ph'[k], c)
  {
    forall c | 0 <= c ensures BufferOk(st', ph', c) {
      assert BufferOk(st, ph, c);
      if InUse(st.channels, c) && Queued(st', c) == 0 && c !in st'.stray {
        var h :| 0 <= h < GROUPS && Holds(st.group[h], ph[h], c);
        assert Holds(st'.group[h], ph'[h], c);
      }
    }
  }

  lemma GiveBackFirstKeeps(st: Store, ph: seq<Phase>, g: nat)
    requires StoreInv(st, ph) && g < GROUPS && ph[g] == Half
    ensures StoreInv(GiveBackFirst(st, g), ph[g := Dropped])
  {
    var st' := GiveBackFirst(st, g);
    var ph' := ph[g := Dropped];
    assert GroupOk(st, ph[g], g);
    var b := st.group[g].image0;
    assert Holds(st.group[g], ph[g], b);
    Surrendered(st, ph, st', ph', g, {b}, {});
  }

  lemma MarkCameraKeeps(st: Store, ph: seq<Phase>, g: nat)
    requires StoreInv(st, ph) && g < GROUPS && ph[g].Owed?
    ensures StoreInv(MarkCamera(st, g), ph[g := Owed(ph[g].n, true)])
  {
    assert GroupOk(st, ph[g], g);
    SameHolders(st, ph, MarkCamera(st, g), ph[g := Owed(ph[g].n, true)]);
  }

  lemma SetInfoKeeps(st: Store, ph: seq<Phase>, g: nat, info: SampleInfo)
    requires StoreInv(st, ph) && g < GROUPS
    ensures StoreInv(SetInfo(st, g, info), ph)
  {
    assert GroupOk(st, ph[g], g);
    SameHolders(st, ph, SetInfo(st, g, info), ph);
  }

  lemma FillOverclockKeeps(st: Store, ph: seq<Phase>, g: nat, info: SampleInfo)
    requires StoreInv(st, ph) && g < GROUPS && ph[g] == Raw
    requires forall h :: 0 <= h < GROUPS ==> ph[h] != Overclock
    ensures StoreInv(FillOverclock(st, g, info), ph[g := Overclock])
  {
    forall h | 0 <= h < GROUPS ensures GroupOk(st, ph[h], h) {}
    SameHolders(st, ph, FillOverclock(st, g, info), ph[g := Overclock]);
  }

  /** The placeholder buffer of the k-th overclock interrupt from now on. */
  function Placeholder(ovIndex: nat, k: nat): nat {
    VP_BUFS + (ovIndex + k) % OVERCLOCK_ARRAY_MAX
  }

  /** Placeholders are used in turn. */
  lemma NextPlaceholder(st: Store, g: nat, info: SampleInfo)
    requires Sized(st) && g < GROUPS
    ensures var st' := FillOverclock(st, g, info);
            && st'.group[g].image0 == Placeholder(st.ovIndex, 1) && st'.group[g].info == info
            && forall k: nat :: Placeholder(st'.ovIndex, k) == Placeholder(st.ovIndex, k + 1)
  {
    var i := FillOverclock(st, g, info).ovIndex;
    forall k: nat ensures Placeholder(i, k) == Placeholder(st.ovIndex, k + 1) {
      if st.ovIndex + 1 >= OVERCLOCK_ARRAY_MAX {
        assert (st.ovIndex + k + 1) % OVERCLOCK_ARRAY_MAX == k % OVERCLOCK_ARRAY_MAX;
      }
    }
  }

  /** So 32 of them in a row are all different. */
  lemma PlaceholdersDiffer(ovIndex: nat, j: nat, k: nat)
    requires j < k < j + OVERCLOCK_ARRAY_MAX
    ensures Placeholder(ovIndex, j) != Placeholder(ovIndex, k)
  {}

  /** A release that is not the last one owed only counts down. */
  lemma ReleaseCounts(st: Store, ph: seq<Phase>, g: nat)
    requires StoreInv(st, ph) && g < GROUPS && ph[g].Owed? && ph[g].n > 1
    ensures Pointers(st, g) && !ReleaseImages(st, g).1
    ensures var st' := Release(st, g);
            && StoreInv(st', ph[g := Owed(ph[g].n - 1, ph[g].camera)])
            && st' == st.(rCount := st'.rCount)
  {
    OthersImages(st, ph, g, g);
    var st' := Release(st, g);
    var ph' := ph[g := Owed(ph[g].n - 1, ph[g].camera)];
    SameHolders(st, ph, st', ph');
    forall h | 0 <= h < GROUPS ensures GroupOk(st', ph'[h], h) {
      OthersImages(st, ph, g, h);
    }
  }

  /** What the last release of a camera group does to the driver queues. */
  ghost predicate Requeued(st: Store, st': Store, gr: Group) {
    && (forall b: nat :: st'.queue1[b] == st.queue1[b] + (if b in Images(gr) && b < VID1_BUF_MAX then 1 else 0))
    && (forall b: nat :: st'.queue2[b] == st.queue2[b] + (if b in Images(gr) && b >= VID1_BUF_MAX then 1 else 0))
  }

  /** Dropping the last reference to a channel image through its own channel. */
  lemma DropLast(st: Store, img: nat, video: nat, source: int)
    requires img < |st.rCount| && img < VP_BUFS && st.rCount[img] == 1
    requires video == if img < VID1_BUF_MAX then 1 else 2
    ensures var st' := DropRef(st, img, video, source);
            && st' == st.(rCount := st.rCount[img := 0], queue1 := st'.queue1, queue2 := st'.queue2, stray := st'.stray)
            && (forall b: nat ::
                  st'.queue1[b] == st.queue1[b] + (if source == 0 && b == img && b < VID1_BUF_MAX then 1 else 0))
            && (forall b: nat ::
                  st'.queue2[b] == st.queue2[b] + (if source == 0 && b == img && b >= VID1_BUF_MAX then 1 else 0))
            && st'.stray == if source == 0 then st.stray else st.stray + {img}
  {}

  ghost predicate LastEffect(st: Store, st': Store, g: nat)
    requires Sized(st) && g < GROUPS
  {
    && st'.group == st.group && |st'.rCount| == |st.rCount|
    && st'.channels == st.channels && st'.locked == st.locked && st'.ovIndex == st.ovIndex
    && (forall b :: 0 <= b < BUFS && b !in Images(st.group[g]) ==> st'.rCount[b] == st.rCount[b])
    && (st.group[g].source == 0 ==> Requeued(st, st', st.group[g]) && st'.stray == st.stray)
    && (st.group[g].source != 0 ==>
          && st'.queue1 == st.queue1 && st'.queue2 == st.queue2
          && st'.stray == st.stray + set b | b in Images(st.group[g]))
  }

  /** What the code of video_context_release does when every count of the group is 1. */
  lemma LastReleaseSole(st: Store, g: nat)
    requires Pointers(st, g) && CameraImages(st.channels, st.group[g]) && st.group[g].imageNum == 1
    requires st.rCount[st.group[g].image0] == 1
    ensures ReleaseImages(st, g).1 && LastEffect(st, ReleaseImages(st, g).0, g)
    ensures ReleaseImages(st, g).0.pool == st.pool
  {
    var gr := st.group[g];
    DropLast(st, gr.image0, SoleVideo(st.channels), gr.source);
    assert Images(gr) == [gr.image0];
    assert (set b | b in Images(gr)) == {gr.image0};
  }

  lemma LastReleaseBoth(st: Store, g: nat)
    requires Pointers(st, g) && CameraImages(st.channels, st.group[g]) && st.group[g].imageNum == 2
    requires st.rCount[st.group[g].image0] == 1 && st.rCount[st.group[g].image1] == 1
    ensures ReleaseImages(st, g).1 && LastEffect(st, ReleaseImages(st, g).0, g)
    ensures ReleaseImages(st, g).0.pool == st.pool
  {
    var gr := st.group[g];
    DropLast(st, gr.image0, 1, gr.source);
    var s1 := DropRef(st, gr.image0, 1, gr.source);
    DropLast(s1, gr.image1, 2, gr.source);
    assert Images(gr) == [gr.image0, gr.image1];
    assert (set b | b in Images(gr)) == {gr.image0, gr.image1};
  }

  lemma LastReleaseKeeps(st: Store, ph: seq<Phase>, st': Store, ph': seq<Phase>, g: nat)
    requires StoreInv(st, ph) && g < GROUPS && ph[g].Owed? && ph' == ph[g := Free]
    requires st'.pool == st.pool + [g] && LastEffect(st, st', g)
    ensures StoreInv(st', ph')
  {
    OthersImages(st, ph, g, g);
    var held := set b | b in Images(st.group[g]);
    if st.group[g].source == 0 {
      Surrendered(st, ph, st', ph', g, held, {});
    } else {
      Surrendered(st, ph, st', ph', g, {}, held);
    }
    forall h | 0 <= h < GROUPS ensures GroupOk(st', ph'[h], h) {
      OthersImages(st, ph, g, h);
    }
    PutBack(st, ph, st', ph', g);
  }

  /** The last release owed recycles the group at that very step. Its images go back
      to the queues of their own channels if image_source is 0, and stray if it is
      not. */
  lemma ReleaseLast(st: Store, ph: seq<Phase>, g: nat)
    requires StoreInv(st, ph) && g < GROUPS && ph[g].Owed? && ph[g].n == 1
    ensures Pointers(st, g) && ReleaseImages(st, g).1
    ensures var st' := Release(st, g);
            && StoreInv(st', ph[g := Free])
            && st'.pool == st.pool + [g]
            && (st.group[g].source == 0 ==> Requeued(st, st', st.group[g]) && st'.stray == st.stray)
            && (st.group[g].source != 0 ==>
                  && st'.queue1 == st.queue1 && st'.queue2 == st.queue2
                  && st'.stray == st.stray + set b | b in Images(st.group[g]))
  {
    OthersImages(st, ph, g, g);
    if st.group[g].imageNum == 1 { LastReleaseSole(st, g); } else { LastReleaseBoth(st, g); }
    LastReleaseKeeps(st, ph, Release(st, g), ph[g := Free], g);
  }

  lemma PutBack(st: Store, ph: seq<Phase>, st': Store, ph': seq<Phase>, g: nat)
    requires PhasesSized(st, ph) && PoolOk(st, ph) && PhasesSized(st', ph')
    requires g < GROUPS && ph[g] != Free && ph' == ph[g := Free] && st'.pool == st.pool + [g]
    ensures PoolOk(st', ph')
  {
    forall h | 0 <= h < GROUPS && ph'[h] == Free ensures h in st'.pool {
      if h == g { assert st'.pool[|st.pool|] == g; } else { assert h in st.pool; }
    }
  }

  lemma ReleaseOverclock(st: Store, ph: seq<Phase>, g: nat)
    requires StoreInv(st, ph) && g < GROUPS && ph[g] == Overclock
    ensures Pointers(st, g) && ReleaseImages(st, g).1
    ensures var st' := Release(st, g);
            && StoreInv(st', ph[g := Free])
            && st' == st.(rCount := st'.rCount, pool := st.pool + [g])
  {
    assert GroupOk(st, ph[g], g);
    var st' := Release(st, g);
    var ph' := ph[g := Free];
    SameHolders(st, ph, st', ph');
    forall h | 0 <= h < GROUPS ensures GroupOk(st', ph'[h], h) {
      assert GroupOk(st, ph[h], h);
    }
    PutBack(st, ph, st', ph', g);
  }

  /** One release more of what is owed. */
  function Released(p: Phase): Phase
    requires p.Owed? && p.n > 0
  {
    if p.n == 1 then Free else Owed(p.n - 1, p.camera)
  }

  lemma ReleaseKeeps(st: Store, ph: seq<Phase>, g: nat)
    requires StoreInv(st, ph) && g < GROUPS && ph[g].Owed?
    ensures ph[g].n > 0 && Pointers(st, g) && (ReleaseImages(st, g).1 <==> ph[g].n == 1)
    ensures StoreInv(Release(st, g), ph[g := Released(ph[g])])
    ensures Release(st, g).channels == st.channels
  {
    assert GroupOk(st, ph[g], g);
    if ph[g].n == 1 { ReleaseLast(st, ph, g); } else { ReleaseCounts(st, ph, g); }
  }
}
