/** The sample groups and image buffers as the C code keeps them, updated in place:
    video_context_release and what the capture task and the overclock interrupt do to a
    group (image/video_context.c, image/sample_factory.c, fpga/fpga.c). Every method is
    proved against the function of module GroupStore of which the pipeline is made. */
module VideoContext {
  import opened GroupStore
  import SlotPool

  class Context {
    const channels: Channels
    const rCount: array<nat>
    const group: array<Group>
    var pool: seq<nat>
    var locked: bool
    var queue1: multiset<nat>
    var queue2: multiset<nat>
    var ovIndex: nat
    ghost var stray: set<nat>

    constructor (channels: Channels, group: array<Group>, queue1: multiset<nat>, queue2: multiset<nat>)
      requires group.Length == GROUPS
      ensures Valid() && this.channels == channels && this.group == group && !locked && stray == {}
      ensures pool == SlotPool.UpTo(GROUPS) && this.queue1 == queue1 && this.queue2 == queue2 && ovIndex == 0
    {
      this.channels, this.group, this.queue1, this.queue2 := channels, group, queue1, queue2;
      rCount := new nat[BUFS];
      pool, locked, ovIndex, stray := SlotPool.UpTo(GROUPS), false, 0, {};
    }

    ghost predicate Valid() reads this {
      rCount.Length == BUFS && group.Length == GROUPS && ovIndex < OVERCLOCK_ARRAY_MAX
    }

    /** The abstract value. */
    ghost function Abs(): Store
      reads this, rCount, group
    {
      Store(channels, rCount[..], group[..], pool, locked, queue1, queue2, ovIndex, stray)
    }

    /** A locked half of a release. */
    method Drop(img: nat, video: nat, source: int) returns (last: bool)
      requires Valid() && img < BUFS
      modifies this`queue1, this`queue2, this`stray, rCount
      ensures Abs() == DropRef(old(Abs()), img, video, source) && last == (rCount[img] == 0)
    {
      rCount[img] := if rCount[img] == 0 then U32_MAX else rCount[img] - 1;
      last := rCount[img] == 0;
      if last {
        if source == 0 {
          if video == 1 { queue1 := queue1 + multiset{img}; } else { queue2 := queue2 + multiset{img}; }
        } else if img < VP_BUFS {
          stray := stray + {img};
        }
      }
    }

    /** video_context_release. */
    method Release(g: nat)
      requires Valid() && Pointers(Abs(), g) && CanRelease(Abs(), g)
      modifies this, rCount
      ensures Valid() && Abs() == GroupStore.Release(old(Abs()), g)
    {
      var gr := group[g];
      if gr.imageNum == 1 {
        var last := Drop(gr.image0, if channels == Only2 then 2 else 1, gr.source);
        if last {
          RecycleGroup(g);
        }
      } else if gr.imageNum == 2 {
        var last0 := Drop(gr.image0, 1, gr.source);
        var last1 := Drop(gr.image1, 2, gr.source);
        if rCount[gr.image0] == 0 && rCount[gr.image1] == 0 {
          RecycleGroup(g);
        }
      }
    }

    /** sample_factory_recycle. */
    method RecycleGroup(g: nat)
      requires !locked
      modifies this`pool
      ensures Abs() == Recycle(old(Abs()), g)
    {
      pool := pool + [g];
    }

    /** sample_factory_produce: on an empty pool it returns without unlocking. */
    method ProduceGroup() returns (g: int)
      requires Valid() && !locked && (pool != [] ==> pool[0] < GROUPS)
      modifies this, group
      ensures Valid() && g == if old(pool) == [] then -1 else old(pool)[0]
      ensures Abs() == if old(pool) == [] then old(Abs()).(locked := true) else TakeGroup(old(Abs()))
    {
      locked := true;
      if pool == [] {
        return -1;
      }
      g := pool[0];
      group[g] := group[g].(info := ZERO_INFO);
      pool := pool[1..];
      locked := false;
    }

    /** The capture task with one channel: the driver hands out b. */
    method CaptureSole(g: nat, b: nat)
      requires Valid() && g < GROUPS && b < BUFS && channels != Both && FirstQueue(Abs())[b] > 0
      modifies this, rCount, group
      ensures Valid() && Abs() == TakeSole(old(Abs()), g, b)
    {
      if channels == Only2 { queue2 := queue2 - multiset{b}; } else { queue1 := queue1 - multiset{b}; }
      group[g] := group[g].(image0 := b, imageNum := 1);
      rCount[b] := 3;
    }

    /** The capture task with two channels: the driver hands out b for the first image. */
    method CaptureFirst(g: nat, b: nat)
      requires Valid() && g < GROUPS && channels == Both && queue1[b] > 0
      modifies this`queue1, group
      ensures Valid() && Abs() == TakeFirst(old(Abs()), g, b)
    {
      queue1 := queue1 - multiset{b};
      group[g] := group[g].(image0 := b);
    }

    /** A reset is in progress: the first image goes straight back. */
    method ReturnFirst(g: nat)
      requires Valid() && g < GROUPS
      modifies this`queue1
      ensures Valid() && Abs() == GiveBackFirst(old(Abs()), g)
    {
      queue1 := queue1 + multiset{group[g].image0};
    }

    /** The second image, and the counts of both, one after the other. */
    method CaptureSecond(g: nat, b: nat)
      requires Valid() && g < GROUPS && b < BUFS && group[g].image0 < BUFS && channels == Both && queue2[b] > 0
      modifies this`queue2, rCount, group
      ensures Valid() && Abs() == TakeSecond(old(Abs()), g, b)
    {
      queue2 := queue2 - multiset{b};
      group[g] := group[g].(image1 := b, imageNum := 2);
      rCount[group[g].image0] := 3;
      rCount[group[g].image1] := 3;
    }

    /** image_source is set to 0 once the image has a number. */
    method MarkAsCamera(g: nat)
      requires Valid() && g < GROUPS
      modifies group
      ensures Valid() && Abs() == MarkCamera(old(Abs()), g)
    {
      group[g] := group[g].(source := 0);
    }

    /** The overclock interrupt fills its group; get_overclock_img_buf picks the next
        placeholder buffer. */
    method FillFromInterrupt(g: nat, info: SampleInfo)
      requires Valid() && g < GROUPS
      modifies this, rCount, group
      ensures Valid() && Abs() == FillOverclock(old(Abs()), g, info)
    {
      ovIndex := ovIndex + 1;
      if ovIndex >= OVERCLOCK_ARRAY_MAX {
        ovIndex := 0;
      }
      var b := VP_BUFS + ovIndex;
      group[g] := Group(info, b, group[g].image1, 1, 1);
      rCount[b] := 1;
    }
  }
}
