/**
 The bounded trail of recent positions kept per client: each update pushes
 the new position and, once the trail is longer than MaxTrail, shifts the
 oldest one off.
 */
module Trail {
  import opened Types

  /** One update of a trail: push `p`, then drop the oldest entry if the
      trail has grown past MaxTrail. */
  function Push(trail: seq<Pos>, p: Pos): (r: seq<Pos>)
    ensures |r| > 0 && r[|r| - 1] == p
    ensures |trail| <= MaxTrail ==> |r| == Min(|trail| + 1, MaxTrail)
  {
    var pushed := trail + [p];
    if |pushed| > MaxTrail then pushed[1..] else pushed
  }

  /** The trail that results from an empty one after the positions `sent`,
      oldest first, have been pushed one by one. */
  function Replay(sent: seq<Pos>): (r: seq<Pos>)
    ensures |r| <= MaxTrail
  {
    if sent == [] then [] else Push(Replay(sent[..|sent| - 1]), sent[|sent| - 1])
  }

  /** The last min(N, MaxTrail) of the N positions `sent`, oldest first. */
  function Recent(sent: seq<Pos>): (r: seq<Pos>)
  {
    sent[|sent| - Min(|sent|, MaxTrail)..]
  }

  /** Pushing onto the trail of `sent` gives the trail of `sent + [p]`. */
  lemma ReplayPush(sent: seq<Pos>, p: Pos)
    ensures Replay(sent + [p]) == Push(Replay(sent), p)
  {
    assert (sent + [p])[..|sent|] == sent;
  }

  /** After N updates the trail holds exactly the last min(N, MaxTrail)
      positions, oldest first. */
  lemma {:induction false} ReplayKeepsLast(sent: seq<Pos>)
    ensures |Replay(sent)| == Min(|sent|, MaxTrail)
    ensures Replay(sent) == Recent(sent)
  {
    if sent != [] {
      var init := sent[..|sent| - 1];
      var m := Min(|init|, MaxTrail);
      ReplayKeepsLast(init);
      assert init[|init| - m..] + [sent[|sent| - 1]] == sent[|init| - m..];
    }
  }

  /** One push keeps a trail equal to the recent positions. */
  lemma PushRecent(sent: seq<Pos>, p: Pos)
    ensures Push(Recent(sent), p) == Recent(sent + [p])
  {
    ReplayKeepsLast(sent);
    ReplayKeepsLast(sent + [p]);
    ReplayPush(sent, p);
  }

  /** Twenty-five updates leave updates 6 to 25 on the trail, in order. */
  lemma TwentyFiveUpdates(sent: seq<Pos>)
    requires |sent| == 25
    ensures Replay(sent) == sent[5..]
  {
    ReplayKeepsLast(sent);
  }
}
