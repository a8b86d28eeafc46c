/**
  The phase classifier shared by the firmware (step24.h) and its JavaScript
  simulator (phase.js): the six shifted estimates, the high-frequency term
  used to build them, and the fixed cascade of six comparison blocks whose
  24 conditional assignments decide the detected phase, the last one that
  fires winning.
*/
module Estimator {
  import opened Wrappers

  /** Decision threshold of every comparison against a constant. */
  const Neutral := 103

  /** Number of electrical steps per revolution. */
  const Steps := 24

  /** Each axis 1/48 cycle ahead of now (adv) and behind now (del). */
  datatype Estimates = Estimates(uDel: int, uAdv: int, vDel: int, vAdv: int, wDel: int, wAdv: int)

  /** The high-frequency part of a wave value, z = (x >> 2) - ((x >> 2) >> 2). */
  function HighFreq(x: nat): (z: nat)
    ensures z <= x / 4
    ensures x <= 255 ==> z <= 48
    ensures 64 <= x <= 191 ==> 12 <= z <= 36
  {
    x / 4 - x / 4 / 4
  }

  /** One conditional assignment `if (fires) detected_phase = phase;` of the cascade. */
  datatype Rule = Rule(fires: bool, phase: int)

  /**
    One comparison block of the cascade,
    `if (cond) { if (a) p = pa; if (b) p = pb; } else { if (x) p = px; if (y) p = py; }`.
  */
  datatype Block = Block(cond: bool, a: bool, pa: int, b: bool, pb: int, x: bool, px: int, y: bool, py: int)

  /** The four assignments of a block: each fires only when its branch is taken and its own test holds. */
  function Assignments(k: Block): seq<Rule>
  {
    [Rule(k.cond && k.a, k.pa), Rule(k.cond && k.b, k.pb), Rule(!k.cond && k.x, k.px), Rule(!k.cond && k.y, k.py)]
  }

  /**
    The else branch of a block mirrors its then branch: it tests the
    negation of each of its two tests, and assigns the phase half a turn
    (12 steps) away from the one the negated test would have assigned.
  */
  predicate Mirrored(k: Block)
  {
    && k.x == !k.a && k.px == (k.pa + 12) % Steps
    && k.y == !k.b && k.py == (k.pb + 12) % Steps
  }

  /** The phases a block assigns are steps. */
  predicate InSteps(k: Block)
  {
    0 <= k.pa < Steps && 0 <= k.pb < Steps && 0 <= k.px < Steps && 0 <= k.py < Steps
  }

  /** The u, v and w blocks compare one del estimate against NEUTRAL. */
  function UBlock(e: Estimates): (k: Block)
    ensures Mirrored(k) && InSteps(k)
  {
    Block(Neutral < e.uDel, e.uAdv <= Neutral, 12, e.uAdv < e.vAdv, 1, Neutral < e.uAdv, 0, e.vAdv <= e.uAdv, 13)
  }

  function VBlock(e: Estimates): (k: Block)
    ensures Mirrored(k) && InSteps(k)
  {
    Block(Neutral < e.vDel, e.vAdv <= Neutral, 4, e.vAdv < e.wAdv, 17, Neutral < e.vAdv, 16, e.wAdv <= e.vAdv, 5)
  }

  function WBlock(e: Estimates): (k: Block)
    ensures Mirrored(k) && InSteps(k)
  {
    Block(Neutral < e.wDel, e.wAdv <= Neutral, 20, e.wAdv < e.uAdv, 9, Neutral < e.wAdv, 8, e.uAdv <= e.wAdv, 21)
  }

  /** The u/w, v/u and w/v blocks compare two del estimates with each other. */
  function UwBlock(e: Estimates): (k: Block)
    ensures Mirrored(k) && InSteps(k)
  {
    Block(e.uDel < e.wDel, Neutral < e.uAdv, 11, e.wAdv < e.uAdv, 22, e.uAdv <= Neutral, 23, e.uAdv <= e.wAdv, 10)
  }

  function VuBlock(e: Estimates): (k: Block)
    ensures Mirrored(k) && InSteps(k)
  {
    Block(e.vDel < e.uDel, Neutral < e.vAdv, 3, e.uAdv < e.vAdv, 14, e.vAdv <= Neutral, 15, e.vAdv <= e.uAdv, 2)
  }

  function WvBlock(e: Estimates): (k: Block)
    ensures Mirrored(k) && InSteps(k)
  {
    Block(e.wDel < e.vDel, Neutral < e.wAdv, 19, e.vAdv < e.wAdv, 6, e.wAdv <= Neutral, 7, e.wAdv <= e.vAdv, 18)
  }

  /** For each step, the position in program order of the one assignment that writes it. */
  const RuleOf: seq<nat> := [2, 1, 19, 16, 4, 7, 21, 22, 10, 9, 15, 12, 0, 3, 17, 18, 6, 5, 23, 20, 8, 11, 13, 14]

  /**
    The 24 conditional assignments of the cascade in program order. Each
    writes a step, and no two write the same one: RuleOf finds each
    assignment back from the step it writes.
  */
  function Rules(e: Estimates): (rs: seq<Rule>)
    ensures |rs| == Steps
    ensures forall i | 0 <= i < |rs| :: 0 <= rs[i].phase < Steps && RuleOf[rs[i].phase] == i
  {
    Assignments(UBlock(e)) + Assignments(VBlock(e)) + Assignments(WBlock(e)) +
    Assignments(UwBlock(e)) + Assignments(VuBlock(e)) + Assignments(WvBlock(e))
  }

  /** The estimates seen from the next axis: v takes the place of u, w of v, and u of w. */
  function Rotated(e: Estimates): Estimates
  {
    Estimates(e.vDel, e.vAdv, e.wDel, e.wAdv, e.uDel, e.uAdv)
  }

  /** A block with every phase moved 16 steps on, a third of a turn back. */
  function Turned(k: Block): Block
  {
    k.(pa := (k.pa + 16) % Steps, pb := (k.pb + 16) % Steps, px := (k.px + 16) % Steps, py := (k.py + 16) % Steps)
  }

  /**
    The three axes are treated alike: each block is the block of the
    previous axis applied to the rotated estimates, its phases moved a
    third of a turn. This holds for the u, v and w blocks and for the
    u/w, v/u and w/v blocks.
  */
  lemma BlocksRotate(e: Estimates)
    ensures VBlock(e) == Turned(UBlock(Rotated(e)))
    ensures WBlock(e) == Turned(VBlock(Rotated(e)))
    ensures UBlock(e) == Turned(WBlock(Rotated(e)))
    ensures VuBlock(e) == Turned(UwBlock(Rotated(e)))
    ensures WvBlock(e) == Turned(VuBlock(Rotated(e)))
    ensures UwBlock(e) == Turned(WvBlock(Rotated(e)))
  {
  }

  /** The value held after executing `r` with `acc` held before it. */
  function Overwrite(acc: Option<int>, r: Rule): Option<int>
  {
    if r.fires then Some(r.phase) else acc
  }

  /** The value written by the last rule of `rs` that fires; None when none fires. */
  function LastWrite(rs: seq<Rule>): Option<int>
  {
    if rs == [] then None else Overwrite(LastWrite(rs[..|rs| - 1]), rs[|rs| - 1])
  }

  /**
    Last write wins: LastWrite is None exactly when no rule fires, and
    otherwise the phase of a rule that fires with no firing rule after it.
  */
  lemma {:induction false} LastWriteIsLastFiring(rs: seq<Rule>)
    ensures LastWrite(rs).None? <==> forall i | 0 <= i < |rs| :: !rs[i].fires
    ensures LastWrite(rs).Some? ==>
      exists i | 0 <= i < |rs| :: rs[i].fires && rs[i].phase == LastWrite(rs).value &&
        forall j | i < j < |rs| :: !rs[j].fires
  {
    if rs != [] {
      var k := |rs| - 1;
      LastWriteIsLastFiring(rs[..k]);
      assert forall j | 0 <= j < k :: rs[..k][j] == rs[j];
      if !rs[k].fires && LastWrite(rs).Some? {
        var i :| 0 <= i < k && rs[..k][i].fires && rs[..k][i].phase == LastWrite(rs).value &&
          forall j | i < j < k :: !rs[..k][j].fires;
        assert rs[i].fires && rs[i].phase == LastWrite(rs).value && forall j | i < j < |rs| :: !rs[j].fires;
      }
    }
  }

  /** Executing one more rule after `rs`. */
  lemma LastWriteSnoc(rs: seq<Rule>, r: Rule)
    ensures LastWrite(rs + [r]) == Overwrite(LastWrite(rs), r)
  {
    assert (rs + [r])[..|rs|] == rs;
  }

  /**
    The value held after executing block `k` with `acc` held before it:
    only the taken branch runs, and its second assignment overrides its first.
  */
  function RunBlock(k: Block, acc: Option<int>): Option<int>
  {
    if k.cond then (if k.b then Some(k.pb) else if k.a then Some(k.pa) else acc)
    else (if k.y then Some(k.py) else if k.x then Some(k.px) else acc)
  }

  /** The cascade run block by block, from an unassigned result. */
  function RunBlocks(e: Estimates): Option<int>
  {
    RunBlock(WvBlock(e), RunBlock(VuBlock(e), RunBlock(UwBlock(e),
      RunBlock(WBlock(e), RunBlock(VBlock(e), RunBlock(UBlock(e), None))))))
  }

  /**
    Executing one more comparison block after `rs`: only the taken branch's
    assignments can fire, and the second of them overrides the first.
  */
  lemma LastWriteBlock(rs: seq<Rule>, k: Block)
    ensures LastWrite(rs + Assignments(k)) == RunBlock(k, LastWrite(rs))
  {
    var blk := Assignments(k);
    assert rs + blk == rs + [blk[0]] + [blk[1]] + [blk[2]] + [blk[3]];
    LastWriteSnoc(rs, blk[0]);
    LastWriteSnoc(rs + [blk[0]], blk[1]);
    LastWriteSnoc(rs + [blk[0]] + [blk[1]], blk[2]);
    LastWriteSnoc(rs + [blk[0]] + [blk[1]] + [blk[2]], blk[3]);
  }

  /** Running the rule list is running the six blocks in order. */
  lemma LastWriteByBlocks(e: Estimates)
    ensures LastWrite(Rules(e)) == RunBlocks(e)
  {
    var done: seq<Rule> := [];
    LastWriteBlock(done, UBlock(e));
    done := done + Assignments(UBlock(e));
    LastWriteBlock(done, VBlock(e));
    done := done + Assignments(VBlock(e));
    LastWriteBlock(done, WBlock(e));
    done := done + Assignments(WBlock(e));
    LastWriteBlock(done, UwBlock(e));
    done := done + Assignments(UwBlock(e));
    LastWriteBlock(done, VuBlock(e));
    done := done + Assignments(VuBlock(e));
    LastWriteBlock(done, WvBlock(e));
    done := done + Assignments(WvBlock(e));
    assert done == Rules(e);
  }

  /**
    The cascade as the program runs it: six blocks of unguarded assignments
    to one variable, which starts out unassigned.
  */
  method Detect(e: Estimates) returns (detected: Option<int>)
    ensures detected == LastWrite(Rules(e))
  {
    detected := None;
    if Neutral < e.uDel {
      if e.uAdv <= Neutral { detected := Some(12); }
      if e.uAdv < e.vAdv { detected := Some(1); }
    } else {
      if Neutral < e.uAdv { detected := Some(0); }
      if e.vAdv <= e.uAdv { detected := Some(13); }
    }
    if Neutral < e.vDel {
      if e.vAdv <= Neutral { detected := Some(4); }
      if e.vAdv < e.wAdv { detected := Some(17); }
    } else {
      if Neutral < e.vAdv { detected := Some(16); }
      if e.wAdv <= e.vAdv { detected := Some(5); }
    }
    if Neutral < e.wDel {
      if e.wAdv <= Neutral { detected := Some(20); }
      if e.wAdv < e.uAdv { detected := Some(9); }
    } else {
      if Neutral < e.wAdv { detected := Some(8); }
      if e.uAdv <= e.wAdv { detected := Some(21); }
    }
    if e.uDel < e.wDel {
      if Neutral < e.uAdv { detected := Some(11); }
      if e.wAdv < e.uAdv { detected := Some(22); }
    } else {
      if e.uAdv <= Neutral { detected := Some(23); }
      if e.uAdv <= e.wAdv { detected := Some(10); }
    }
    if e.vDel < e.uDel {
      if Neutral < e.vAdv { detected := Some(3); }
      if e.uAdv < e.vAdv { detected := Some(14); }
    } else {
      if e.vAdv <= Neutral { detected := Some(15); }
      if e.vAdv <= e.uAdv { detected := Some(2); }
    }
    if e.wDel < e.vDel {
      if Neutral < e.wAdv { detected := Some(19); }
      if e.vAdv < e.wAdv { detected := Some(6); }
    } else {
      if e.wAdv <= Neutral { detected := Some(7); }
      if e.wAdv <= e.vAdv { detected := Some(18); }
    }
    assert detected == RunBlock(WvBlock(e), RunBlock(VuBlock(e), RunBlock(UwBlock(e), RunBlock(WBlock(e), RunBlock(VBlock(e), RunBlock(UBlock(e), None))))));
    LastWriteByBlocks(e);
  }

  /**
    Whatever the six estimates are, some assignment of the cascade fires, so
    the detected phase is always assigned, and it is one of the 24 steps.
  */
  lemma AlwaysFires(e: Estimates)
    ensures LastWrite(Rules(e)).Some?
    ensures 0 <= LastWrite(Rules(e)).value < Steps
  {
    LastWriteByBlocks(e);
  }

  /** The detected phase of a set of estimates. */
  function Classify(e: Estimates): (p: int)
    ensures 0 <= p < Steps
    ensures Some(p) == LastWrite(Rules(e))
  {
    AlwaysFires(e);
    LastWrite(Rules(e)).value
  }
}
