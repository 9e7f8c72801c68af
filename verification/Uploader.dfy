/** The upload state as the C code keeps it, updated in place: send_sample_info,
    allow_send_sample, send_image_info, allow_send_image and one message of net_send_tsk
    (net/net_protocol.c:37-240, net/net.c:59-107). Every method is proved against the
    function of module Upload of the same step. */
module Uploader {
  import opened GroupStore
  import U = Upload

  class Sender {
    const ring: array<SampleInfo>
    var index: nat
    var inProcess: nat
    var sampleAbility: bool
    var staging: nat
    var imageAbility: bool
    var mbx: seq<U.Message>
    var held: seq<U.Message>
    ghost var sampleLog: seq<SampleInfo>
    ghost var imageLog: seq<nat>
    ghost var lost: nat
    ghost var sentSamples: seq<(nat, SampleInfo)>
    ghost var sentImages: seq<(nat, nat)>
    var serialSamples: nat
    var serialImages: nat

    ghost predicate Valid() reads this {
      && ring.Length == U.SAMPLE_INFO_ARRAY_MAX && index < U.SAMPLE_INFO_ARRAY_MAX
      && serialSamples == |sampleLog| && serialImages == |imageLog|
    }

    /** The abstract value. */
    ghost function Abs(): U.State
      reads this, ring
    {
      U.State(ring[..], index, inProcess, sampleAbility, staging, imageAbility, mbx, held,
              sampleLog, imageLog, lost, sentSamples, sentImages)
    }

    constructor ()
      ensures Valid() && Abs() == U.INIT
    {
      ring := new SampleInfo[U.SAMPLE_INFO_ARRAY_MAX](_ => ZERO_INFO);
      index, inProcess, sampleAbility, staging, imageAbility := 0, 0, true, 0, true;
      mbx, held, sampleLog, imageLog, lost, sentSamples, sentImages := [], [], [], [], 0, [], [];
      serialSamples, serialImages := 0, 0;
    }

    /** allow_send_sample. */
    method AllowSendSample()
      requires Valid()
      modifies this`inProcess, this`sampleAbility
      ensures Valid() && Abs() == U.AllowSample(old(Abs()))
    {
      if inProcess != 0 {
        inProcess := inProcess - 1;
        if inProcess < U.SAMPLE_INFO_ARRAY_MAX {
          sampleAbility := true;
        }
      }
    }

    /** send_sample_info, without the release of the group. */
    method SendSampleInfo(info: SampleInfo, link: bool, gotMsg: bool, posted: bool)
      requires Valid()
      modifies this, ring
      ensures Valid() && Abs() == U.SendSample(old(Abs()), info, link, gotMsg, posted)
    {
      if link {
        if sampleAbility {
          inProcess := inProcess + 1;
          if inProcess >= U.SAMPLE_INFO_ARRAY_MAX {
            sampleAbility := false;
          }
          if !gotMsg {
            lost := lost + 1;
            return;
          }
          CopyAndPost(info, posted);
        }
      }
    }

    /** The record goes into the ring slot, and the slot goes out. */
    method CopyAndPost(info: SampleInfo, posted: bool)
      requires Valid()
      modifies this, ring
      ensures Valid()
      ensures var s := old(Abs());
              var s2 := s.(ring := s.ring[s.index := info], index := U.NextSlot(s.index),
                           sampleLog := s.sampleLog + [info]);
              Abs() == if posted then s2.(mbx := U.Insert(s2.mbx, U.Sample(s.index, |s.sampleLog|)))
                        else U.AllowSample(s2)
    {
      var slot, serial := index, serialSamples;
      ring[index] := info;
      sampleLog, serialSamples := sampleLog + [info], serialSamples + 1;
      index := index + 1;
      if index >= U.SAMPLE_INFO_ARRAY_MAX {
        index := 0;
      }
      if posted {
        mbx := U.Insert(mbx, U.Sample(slot, serial));
      } else {
        AllowSendSample();
      }
    }

    /** send_image_info, without the release of the group. */
    method SendImageInfo(image: nat, link: bool, gotMsg: bool, posted: bool)
      requires Valid()
      modifies this
      ensures Valid() && Abs() == U.SendImage(old(Abs()), image, link, gotMsg, posted)
    {
      if link {
        if imageAbility {
          imageAbility := false;
          if !gotMsg {
            imageAbility := true;
            return;
          }
          staging := image;
          if posted {
            mbx := U.Insert(mbx, U.Image(serialImages));
            imageLog, serialImages := imageLog + [image], serialImages + 1;
          } else {
            imageAbility := true;
          }
        }
      }
    }

    /** net_send_tsk: mailbox_pend. */
    method PendOne()
      requires Valid() && U.CanPend(Abs())
      modifies this`held, this`mbx
      ensures Valid() && Abs() == U.Pend(old(Abs()))
    {
      held, mbx := [mbx[0]], mbx[1..];
    }

    /** net_send_tsk: from the link test to the recycling of the message, which runs its
        finish callback. */
    method FinishOne(link: bool)
      requires Valid() && U.CanFinish(Abs())
      modifies this
      ensures Valid() && Abs() == U.Finish(old(Abs()), link)
    {
      var m := held[0];
      held := [];
      match m {
        case Sample(slot, serial) =>
          if link {
            sentSamples := sentSamples + [(serial, ring[slot])];
          }
          AllowSendSample();
        case Image(serial) =>
          if link {
            sentImages := sentImages + [(serial, staging)];
          }
          imageAbility := true;
        case Control(_) =>
      }
    }
  }
}
