/**
 * The fifty choreographies of useless_machine.py (action1 .. action50) as
 * data, the dispatch from the number `random.randint(1, 50)` draws to one of
 * them, and the proof that every one of them keeps the lid/arm rule and
 * returns the machine to rest.
 */
module Catalog {

  import opened Wrappers
  import opened Choreography

  /** action1 (useless_machine.py:103-111). */
  function Action1(): Choreography {
    [ Do(SetPulse(Lid, 1100)), Do(Sleep(1000)), Do(SetPulse(Arm, 1700)), Do(Sleep(500)),
      Do(SetPulse(Arm, 2450)), Do(Sleep(1000)), Do(SetPulse(Lid, 2400)), Do(Sleep(1000)) ]
  }

  /** action2 (useless_machine.py:113-120). */
  function Action2(): Choreography {
    [ Do(SetPulse(Lid, 1100)), Do(Sleep(100)), Do(SetPulse(Arm, 1700)), Do(Sleep(250)),
      Do(SetPulse(Arm, 2450)), Do(Sleep(100)), Do(SetPulse(Lid, 2400)) ]
  }

  /** action3 (useless_machine.py:122-129). */
  function Action3(): Choreography {
    [ Do(SetPulse(Lid, 1100)), Do(Sleep(100)), Do(SetPulse(Arm, 1700)), Do(Sleep(100)),
      Do(SetPulse(Arm, 2450)), Do(Sleep(100)), Do(SetPulse(Lid, 2400)) ]
  }

  /** action4 (useless_machine.py:131-138). */
  function Action4(): Choreography {
    [ Do(SetPulse(Lid, 1100)), Do(Sleep(100)), Do(SetPulse(Arm, 1700)), Do(Sleep(2500)),
      Do(SetPulse(Arm, 2450)), Do(Sleep(100)), Do(SetPulse(Lid, 2400)) ]
  }

  /** action5 (useless_machine.py:140-152). */
  function Action5(): Choreography {
    [ Do(SetPulse(Lid, 1100)), Do(Sleep(100)),
      Repeat(3, [SetPulse(Lid, 1500), Sleep(500), SetPulse(Lid, 1100), Sleep(500)]),
      Do(SetPulse(Arm, 1700)), Do(Sleep(100)), Do(SetPulse(Arm, 2450)), Do(Sleep(100)),
      Do(SetPulse(Lid, 2400)) ]
  }

  /** action6 (useless_machine.py:154-164). */
  function Action6(): Choreography {
    [ Do(SetPulse(Lid, 1100)), Do(Sleep(100)),
      Repeat(3, [SetPulse(Arm, 2300), Sleep(250), SetPulse(Arm, 1700), Sleep(100)]),
      Do(SetPulse(Arm, 2450)), Do(Sleep(250)), Do(SetPulse(Lid, 2400)) ]
  }

  /** action7 (useless_machine.py:166-176). */
  function Action7(): Choreography {
    [ Do(SetPulse(Lid, 1100)), Do(Sleep(100)), Do(SetPulse(Arm, 1700)), Do(Sleep(100)),
      Do(Sweep(Arm, 1700, 2450, 20, 100)), Do(SetPulse(Arm, 2450)), Do(Sleep(100)),
      Do(SetPulse(Lid, 2400)) ]
  }

  /** action8 (useless_machine.py:178-206): nothing unless the button reads pressed. */
  function Action8(pressed: bool): Choreography {
    if pressed then
      [ Do(Sleep(1000)), Do(SetPulse(Lid, 1100)), Do(Sleep(100)), Do(SetPulse(Arm, 1700)),
        Do(Sleep(100)), Do(SetPulse(Arm, 2450)), Do(Sleep(100)),
        Do(Sweep(Flag, 1500, 2450, 50, 30)), Do(Sleep(250)),
        Repeat(5, [Sweep(Flag, 2450, 1500, -50, 30), Sweep(Flag, 1500, 2450, 50, 30)]),
        Do(Sleep(250)), Do(Sweep(Flag, 2450, 1500, -50, 50)), Do(SetPulse(Flag, 2450)),
        Do(Sleep(100)), Do(SetPulse(Arm, 2450)), Do(Sleep(100)), Do(SetPulse(Lid, 2400)) ]
    else []
  }

  /** action9 (useless_machine.py:208-219). */
  function Action9(): Choreography {
    [ Do(SetPulse(Lid, 1100)), Do(Sleep(500)), Do(SetPulse(Lid, 2400)), Do(Sleep(500)),
      Do(SetPulse(Lid, 1100)), Do(Sleep(500)), Do(SetPulse(Arm, 1700)), Do(Sleep(500)),
      Do(SetPulse(Arm, 2450)), Do(Sleep(500)), Do(SetPulse(Lid, 2400)) ]
  }

  /** action10 (useless_machine.py:221-228). */
  function Action10(): Choreography {
    [ Do(SetPulse(Lid, 1100)), Do(Sleep(200)), Do(SetPulse(Arm, 1700)), Do(Sleep(200)),
      Do(SetPulse(Arm, 2450)), Do(Sleep(200)), Do(SetPulse(Lid, 2400)) ]
  }

  /** action11 (useless_machine.py:230-241). */
  function Action11(): Choreography {
    [ Do(SetPulse(Lid, 1100)), Do(Sleep(100)), Do(SetPulse(Arm, 1700)), Do(Sleep(500)),
      Do(SetPulse(Lid, 1500)), Do(Sleep(500)), Do(SetPulse(Lid, 1100)), Do(Sleep(500)),
      Do(SetPulse(Arm, 2450)), Do(Sleep(100)), Do(SetPulse(Lid, 2400)) ]
  }

  /** action12 (useless_machine.py:243-252). */
  function Action12(): Choreography {
    [ Do(SetPulse(Lid, 1100)), Do(Sleep(100)), Do(SetPulse(Arm, 1700)), Do(Sleep(100)),
      Do(SetPulse(Arm, 2300)), Do(Sleep(100)), Do(SetPulse(Arm, 2450)), Do(Sleep(100)),
      Do(SetPulse(Lid, 2400)) ]
  }

  /** action13 (useless_machine.py:254-264). */
  function Action13(): Choreography {
    [ Do(SetPulse(Lid, 1100)), Do(Sleep(500)), Do(SetPulse(Arm, 1700)), Do(Sleep(500)),
      Do(SetPulse(Flag, 1500)), Do(Sleep(500)), Do(SetPulse(Flag, 2450)), Do(Sleep(500)),
      Do(SetPulse(Arm, 2450)), Do(SetPulse(Lid, 2400)) ]
  }

  /** action14 (useless_machine.py:266-277). */
  function Action14(): Choreography {
    [ Do(SetPulse(Lid, 1100)), Do(Sleep(100)), Do(SetPulse(Arm, 1700)), Do(Sleep(500)),
      Do(SetPulse(Arm, 2450)), Do(Sleep(100)), Do(SetPulse(Lid, 2400)), Do(Sleep(500)),
      Do(SetPulse(Lid, 1100)), Do(Sleep(500)), Do(SetPulse(Lid, 2400)) ]
  }

  /** action15 (useless_machine.py:279-291). */
  function Action15(): Choreography {
    [ Do(SetPulse(Lid, 1100)), Do(Sleep(100)), Do(SetPulse(Arm, 1700)), Do(Sleep(500)),
      Do(SetPulse(Arm, 2450)), Do(Sleep(100)),
      Repeat(3, [SetPulse(Flag, 1500), Sleep(200), SetPulse(Flag, 2450), Sleep(200)]),
      Do(SetPulse(Lid, 2400)) ]
  }

  /** action16 (useless_machine.py:293-304). */
  function Action16(): Choreography {
    [ Do(SetPulse(Lid, 1100)), Do(Sleep(300)), Do(SetPulse(Arm, 1700)), Do(Sleep(300)),
      Do(SetPulse(Lid, 1500)), Do(Sleep(300)), Do(SetPulse(Lid, 1100)), Do(Sleep(300)),
      Do(SetPulse(Arm, 2450)), Do(Sleep(300)), Do(SetPulse(Lid, 2400)) ]
  }

  /** action17 (useless_machine.py:306-317). */
  function Action17(): Choreography {
    [ Do(SetPulse(Lid, 1100)), Do(Sleep(200)), Do(SetPulse(Flag, 1500)), Do(Sleep(200)),
      Do(SetPulse(Flag, 2450)), Do(Sleep(200)), Do(SetPulse(Arm, 1700)), Do(Sleep(300)),
      Do(SetPulse(Arm, 2450)), Do(Sleep(200)), Do(SetPulse(Lid, 2400)) ]
  }

  /** action18 (useless_machine.py:319-327). */
  function Action18(): Choreography {
    [ Do(SetPulse(Lid, 1100)), Do(Sleep(400)), Do(SetPulse(Arm, 1700)), Do(Sleep(400)),
      Do(SetPulse(Arm, 2450)), Do(Sleep(400)), Do(SetPulse(Lid, 2400)), Do(Sleep(400)) ]
  }

  /** action19 (useless_machine.py:329-337). */
  function Action19(): Choreography {
    [ Do(SetPulse(Lid, 1100)), Do(Sleep(300)),
      Repeat(2, [SetPulse(Arm, 1700), Sleep(300), SetPulse(Arm, 2450), Sleep(300)]),
      Do(SetPulse(Lid, 2400)) ]
  }

  /** action20 (useless_machine.py:339-350). */
  function Action20(): Choreography {
    [ Do(SetPulse(Lid, 1100)), Do(Sleep(100)), Do(SetPulse(Flag, 2000)), Do(Sleep(100)),
      Do(SetPulse(Flag, 2450)), Do(Sleep(100)), Do(SetPulse(Arm, 1700)), Do(Sleep(300)),
      Do(SetPulse(Arm, 2450)), Do(Sleep(300)), Do(SetPulse(Lid, 2400)) ]
  }

  /** action21 (useless_machine.py:352-362). */
  function Action21(): Choreography {
    [ Do(SetPulse(Lid, 1100)), Do(Sleep(200)), Do(SetPulse(Arm, 1700)), Do(Sleep(200)),
      Do(SetPulse(Flag, 1500)), Do(Sleep(200)), Do(SetPulse(Flag, 2450)), Do(Sleep(200)),
      Do(SetPulse(Arm, 2450)), Do(SetPulse(Lid, 2400)) ]
  }

  /** action22 (useless_machine.py:364-373). */
  function Action22(): Choreography {
    [ Do(SetPulse(Lid, 1100)), Do(Sleep(300)), Do(SetPulse(Arm, 1700)), Do(Sleep(100)),
      Do(SetPulse(Arm, 1800)), Do(Sleep(100)), Do(SetPulse(Arm, 2450)), Do(Sleep(300)),
      Do(SetPulse(Lid, 2400)) ]
  }

  /** action23 (useless_machine.py:375-385). */
  function Action23(): Choreography {
    [ Do(SetPulse(Lid, 1100)), Do(Sleep(100)), Do(SetPulse(Arm, 1700)), Do(Sleep(500)),
      Do(SetPulse(Flag, 1500)), Do(Sleep(100)), Do(SetPulse(Flag, 2450)), Do(Sleep(100)),
      Do(SetPulse(Arm, 2450)), Do(SetPulse(Lid, 2400)) ]
  }

  /** action24 (useless_machine.py:387-396). */
  function Action24(): Choreography {
    [ Do(SetPulse(Lid, 1100)), Do(Sleep(200)), Do(SetPulse(Arm, 1700)), Do(Sleep(200)),
      Do(SetPulse(Arm, 2450)), Do(Sleep(200)), Do(SetPulse(Arm, 2450)), Do(Sleep(200)),
      Do(SetPulse(Lid, 2400)) ]
  }

  /** action25 (useless_machine.py:398-407). */
  function Action25(): Choreography {
    [ Do(SetPulse(Lid, 1100)), Do(Sleep(100)), Do(SetPulse(Arm, 1700)), Do(Sleep(300)),
      Do(SetPulse(Arm, 2000)), Do(Sleep(300)), Do(SetPulse(Arm, 2450)), Do(Sleep(100)),
      Do(SetPulse(Lid, 2400)) ]
  }

  /** action26 (useless_machine.py:409-419). */
  function Action26(): Choreography {
    [ Do(SetPulse(Lid, 1100)), Do(Sleep(300)), Do(SetPulse(Arm, 1700)), Do(Sleep(100)),
      Do(SetPulse(Lid, 1500)), Do(Sleep(100)), Do(SetPulse(Lid, 1100)), Do(Sleep(300)),
      Do(SetPulse(Arm, 2450)), Do(SetPulse(Lid, 2400)) ]
  }

  /** action27 (useless_machine.py:421-431). */
  function Action27(): Choreography {
    [ Do(SetPulse(Lid, 1100)), Do(Sleep(100)), Do(SetPulse(Arm, 1700)), Do(Sleep(400)),
      Do(SetPulse(Arm, 2450)), Do(Sleep(200)), Do(SetPulse(Flag, 1500)), Do(Sleep(400)),
      Do(SetPulse(Flag, 2450)), Do(SetPulse(Lid, 2300)) ]
  }

  /** action28 (useless_machine.py:433-442). */
  function Action28(): Choreography {
    [ Do(SetPulse(Lid, 1100)), Do(Sleep(200)), Do(SetPulse(Arm, 1700)), Do(Sleep(300)),
      Do(SetPulse(Arm, 2450)), Do(Sleep(100)), Do(SetPulse(Lid, 1500)), Do(Sleep(200)),
      Do(SetPulse(Lid, 2300)) ]
  }

  /** action29 (useless_machine.py:444-455). */
  function Action29(): Choreography {
    [ Do(SetPulse(Lid, 1100)), Do(Sleep(100)), Do(SetPulse(Arm, 1700)), Do(Sleep(200)),
      Do(SetPulse(Arm, 2450)), Do(Sleep(200)), Do(SetPulse(Lid, 2300)), Do(Sleep(200)),
      Do(SetPulse(Flag, 1500)), Do(Sleep(100)), Do(SetPulse(Flag, 2450)) ]
  }

  /** action30 (useless_machine.py:457-467). */
  function Action30(): Choreography {
    [ Do(SetPulse(Lid, 1100)), Do(Sleep(100)), Do(SetPulse(Arm, 1700)), Do(Sleep(100)),
      Do(SetPulse(Lid, 1500)), Do(Sleep(100)), Do(SetPulse(Lid, 1100)), Do(Sleep(100)),
      Do(SetPulse(Arm, 2450)), Do(SetPulse(Lid, 2300)) ]
  }

  /** action31 (useless_machine.py:469-478). */
  function Action31(): Choreography {
    [ Do(SetPulse(Lid, 1200)), Do(Sleep(1000)), Do(SetPulse(Arm, 1800)), Do(Sleep(1000)),
      Do(SetPulse(Arm, 2450)), Do(Sleep(200)), Do(SetPulse(Lid, 1100)), Do(Sleep(500)),
      Do(SetPulse(Lid, 2400)) ]
  }

  /** action32 (useless_machine.py:480-491). */
  function Action32(): Choreography {
    [ Do(SetPulse(Lid, 1100)), Do(Sleep(500)), Do(SetPulse(Arm, 1700)), Do(Sleep(500)),
      Repeat(3, [SetPulse(Flag, 1500), Sleep(200), SetPulse(Flag, 2450), Sleep(200)]),
      Do(SetPulse(Arm, 2450)), Do(SetPulse(Lid, 2400)) ]
  }

  /** action33 (useless_machine.py:493-503). */
  function Action33(): Choreography {
    [ Do(SetPulse(Lid, 1100)), Do(Sleep(1000)), Do(SetPulse(Arm, 1700)), Do(Sleep(500)),
      Do(SetPulse(Arm, 2300)), Do(Sleep(500)), Do(SetPulse(Arm, 1700)), Do(Sleep(500)),
      Do(SetPulse(Arm, 2450)), Do(SetPulse(Lid, 2400)) ]
  }

  /** action34 (useless_machine.py:505-512). */
  function Action34(): Choreography {
    [ Do(SetPulse(Lid, 1500)), Do(Sleep(1000)), Do(SetPulse(Arm, 1700)), Do(Sleep(500)),
      Do(SetPulse(Arm, 2450)), Do(Sleep(200)), Do(SetPulse(Lid, 2400)) ]
  }

  /** action35 (useless_machine.py:514-524). */
  function Action35(): Choreography {
    [ Do(SetPulse(Lid, 1100)), Do(Sleep(300)), Do(SetPulse(Flag, 1500)), Do(Sleep(300)),
      Do(SetPulse(Flag, 2450)), Do(Sleep(300)), Do(SetPulse(Arm, 1700)), Do(Sleep(300)),
      Do(SetPulse(Arm, 2450)), Do(SetPulse(Lid, 2400)) ]
  }

  /** action36 (useless_machine.py:526-536). */
  function Action36(): Choreography {
    [ Do(SetPulse(Lid, 1100)), Do(Sleep(400)), Do(SetPulse(Arm, 1700)), Do(Sleep(400)),
      Do(SetPulse(Flag, 1500)), Do(Sleep(400)), Do(SetPulse(Flag, 2450)), Do(Sleep(400)),
      Do(SetPulse(Arm, 2450)), Do(SetPulse(Lid, 2400)) ]
  }

  /** action37 (useless_machine.py:538-545). */
  function Action37(): Choreography {
    [ Do(SetPulse(Lid, 1100)), Do(Sleep(100)), Do(SetPulse(Arm, 1800)), Do(Sleep(100)),
      Do(SetPulse(Arm, 2450)), Do(Sleep(100)), Do(SetPulse(Lid, 2400)) ]
  }

  /** action38 (useless_machine.py:547-558). */
  function Action38(): Choreography {
    [ Do(SetPulse(Lid, 1100)), Do(Sleep(200)), Do(SetPulse(Arm, 1700)), Do(Sleep(200)),
      Repeat(2, [SetPulse(Flag, 1500), Sleep(100), SetPulse(Flag, 2450), Sleep(100)]),
      Do(SetPulse(Arm, 2450)), Do(SetPulse(Lid, 2400)) ]
  }

  /** action39 (useless_machine.py:560-567). */
  function Action39(): Choreography {
    [ Do(SetPulse(Lid, 1100)), Do(Sleep(300)), Do(SetPulse(Flag, 2000)), Do(Sleep(200)),
      Do(SetPulse(Flag, 2450)), Do(Sleep(200)), Do(SetPulse(Lid, 2400)) ]
  }

  /** action40 (useless_machine.py:569-579). */
  function Action40(): Choreography {
    [ Do(SetPulse(Lid, 1100)), Do(Sleep(500)), Do(SetPulse(Arm, 1700)), Do(Sleep(500)),
      Do(SetPulse(Flag, 1500)), Do(Sleep(500)), Do(SetPulse(Flag, 2450)), Do(Sleep(500)),
      Do(SetPulse(Arm, 2450)), Do(SetPulse(Lid, 2400)) ]
  }

  /** action41 (useless_machine.py:581-588). */
  function Action41(): Choreography {
    [ Do(SetPulse(Lid, 1500)), Do(Sleep(1000)), Do(SetPulse(Arm, 1700)), Do(Sleep(500)),
      Do(SetPulse(Arm, 2450)), Do(Sleep(200)), Do(SetPulse(Lid, 2400)) ]
  }

  /** action42 (useless_machine.py:590-599). */
  function Action42(): Choreography {
    [ Do(SetPulse(Lid, 1100)), Do(Sleep(300)), Do(SetPulse(Arm, 1700)), Do(Sleep(500)),
      Do(SetPulse(Flag, 1500)), Do(Sleep(300)), Do(SetPulse(Flag, 2450)),
      Do(SetPulse(Arm, 2450)), Do(SetPulse(Lid, 2400)) ]
  }

  /** action43 (useless_machine.py:601-611). */
  function Action43(): Choreography {
    [ Do(SetPulse(Lid, 1100)), Do(Sleep(400)), Do(SetPulse(Arm, 1700)), Do(Sleep(200)),
      Do(SetPulse(Lid, 1500)), Do(Sleep(200)), Do(SetPulse(Lid, 1100)), Do(Sleep(300)),
      Do(SetPulse(Arm, 2450)), Do(SetPulse(Lid, 2400)) ]
  }

  /** action44 (useless_machine.py:613-621). */
  function Action44(): Choreography {
    [ Do(SetPulse(Lid, 1100)), Do(Sleep(200)), Do(SetPulse(Arm, 1700)), Do(Sleep(100)),
      Do(SetPulse(Arm, 2300)), Do(Sleep(100)), Do(SetPulse(Arm, 2450)), Do(SetPulse(Lid, 2400)) ]
  }

  /** action45 (useless_machine.py:623-629). */
  function Action45(): Choreography {
    [ Do(SetPulse(Lid, 1100)), Do(Sleep(500)), Do(SetPulse(Flag, 1500)), Do(Sleep(200)),
      Do(SetPulse(Flag, 2450)), Do(SetPulse(Lid, 2400)) ]
  }

  /** action46 (useless_machine.py:631-638). */
  function Action46(): Choreography {
    [ Do(SetPulse(Lid, 1100)), Do(Sleep(200)), Do(SetPulse(Arm, 1800)), Do(Sleep(500)),
      Do(SetPulse(Arm, 2450)), Do(Sleep(100)), Do(SetPulse(Lid, 2400)) ]
  }

  /** action47 (useless_machine.py:640-651). */
  function Action47(): Choreography {
    [ Do(SetPulse(Lid, 1100)), Do(Sleep(500)), Do(SetPulse(Arm, 1700)), Do(Sleep(500)),
      Repeat(4, [SetPulse(Flag, 1500), Sleep(200), SetPulse(Flag, 2450), Sleep(200)]),
      Do(SetPulse(Arm, 2450)), Do(SetPulse(Lid, 2400)) ]
  }

  /** action48 (useless_machine.py:653-664). */
  function Action48(): Choreography {
    [ Do(SetPulse(Lid, 1100)), Do(Sleep(100)), Do(SetPulse(Arm, 1700)), Do(Sleep(500)),
      Do(SetPulse(Flag, 1500)), Do(Sleep(100)), Do(SetPulse(Flag, 2000)), Do(Sleep(100)),
      Do(SetPulse(Flag, 2450)), Do(SetPulse(Arm, 2450)), Do(SetPulse(Lid, 2400)) ]
  }

  /** action49 (useless_machine.py:666-675). */
  function Action49(): Choreography {
    [ Do(SetPulse(Lid, 1100)), Do(Sleep(300)), Do(SetPulse(Arm, 2000)), Do(Sleep(200)),
      Do(SetPulse(Arm, 2450)), Do(SetPulse(Flag, 1500)), Do(Sleep(500)),
      Do(SetPulse(Flag, 2450)), Do(SetPulse(Lid, 2400)) ]
  }

  /** action50 (useless_machine.py:677-686). */
  function Action50(): Choreography {
    [ Do(SetPulse(Lid, 1100)), Do(Sleep(200)), Do(SetPulse(Arm, 1700)), Do(Sleep(300)),
      Do(SetPulse(Flag, 1500)), Do(Sleep(300)), Do(SetPulse(Flag, 2450)),
      Do(SetPulse(Arm, 2450)), Do(SetPulse(Lid, 2400)) ]
  }

  /**
   * `globals()[f'action{n}']`: the choreography run for the drawn number `n`,
   * None for a name the script does not define. `pressed` is what action8
   * reads from the button.
   */
  function Dispatch(n: int, pressed: bool): (c: Option<Choreography>)
    ensures c.Some? <==> 1 <= n <= 50
  {
    match n
    case 1 => Some(Action1())
    case 2 => Some(Action2())
    case 3 => Some(Action3())
    case 4 => Some(Action4())
    case 5 => Some(Action5())
    case 6 => Some(Action6())
    case 7 => Some(Action7())
    case 8 => Some(Action8(pressed))
    case 9 => Some(Action9())
    case 10 => Some(Action10())
    case 11 => Some(Action11())
    case 12 => Some(Action12())
    case 13 => Some(Action13())
    case 14 => Some(Action14())
    case 15 => Some(Action15())
    case 16 => Some(Action16())
    case 17 => Some(Action17())
    case 18 => Some(Action18())
    case 19 => Some(Action19())
    case 20 => Some(Action20())
    case 21 => Some(Action21())
    case 22 => Some(Action22())
    case 23 => Some(Action23())
    case 24 => Some(Action24())
    case 25 => Some(Action25())
    case 26 => Some(Action26())
    case 27 => Some(Action27())
    case 28 => Some(Action28())
    case 29 => Some(Action29())
    case 30 => Some(Action30())
    case 31 => Some(Action31())
    case 32 => Some(Action32())
    case 33 => Some(Action33())
    case 34 => Some(Action34())
    case 35 => Some(Action35())
    case 36 => Some(Action36())
    case 37 => Some(Action37())
    case 38 => Some(Action38())
    case 39 => Some(Action39())
    case 40 => Some(Action40())
    case 41 => Some(Action41())
    case 42 => Some(Action42())
    case 43 => Some(Action43())
    case 44 => Some(Action44())
    case 45 => Some(Action45())
    case 46 => Some(Action46())
    case 47 => Some(Action47())
    case 48 => Some(Action48())
    case 49 => Some(Action49())
    case 50 => Some(Action50())
    case _ => None
  }

  /** action8 with the button released issues no command at all. */
  lemma ReleasedButtonIdles()
    ensures Dispatch(8, false) == Some([])
    ensures Expand(Dispatch(8, false).value) == []
  {
  }

  /** action1 issues exactly the commands of useless_machine.py:103-111. */
  lemma Action1Trace()
    ensures Expand(Action1()) ==
      [ Pulse(Lid, 1100), Hold(1000), Pulse(Arm, 1700), Hold(500),
        Pulse(Arm, 2450), Hold(1000), Pulse(Lid, 2400), Hold(1000) ]
  {
    var c := Action1();
    assert c[8..] == [];
    ExpandAt(c, 7);
    ExpandAt(c, 6);
    ExpandAt(c, 5);
    ExpandAt(c, 4);
    ExpandAt(c, 3);
    ExpandAt(c, 2);
    ExpandAt(c, 1);
    ExpandAt(c, 0);
    assert c[0..] == c;
  }

  // ---- Each action, validated from either rest pose ----

  lemma Action1From(lid: int)
    requires LidCloses(lid)
    ensures Check(Pose(lid, 2450, 2450), Action1(), 0)
    ensures CheckFinal(Pose(lid, 2450, 2450), Action1(), 0) == Pose(2400, 2450, 2450)
  {
  }

  lemma Action1Checked(p: Pose, pressed: bool)
    requires AtRest(p)
    ensures Check(p, Dispatch(1, pressed).value, 0)
    ensures CheckFinal(p, Dispatch(1, pressed).value, 0) == Pose(2400, 2450, 2450)
  {
    Action1From(p.lid);
    assert Dispatch(1, pressed) == Some(Action1());
  }

  lemma Action2From(lid: int)
    requires LidCloses(lid)
    ensures Check(Pose(lid, 2450, 2450), Action2(), 0)
    ensures CheckFinal(Pose(lid, 2450, 2450), Action2(), 0) == Pose(2400, 2450, 2450)
  {
  }

  lemma Action2Checked(p: Pose, pressed: bool)
    requires AtRest(p)
    ensures Check(p, Dispatch(2, pressed).value, 0)
    ensures CheckFinal(p, Dispatch(2, pressed).value, 0) == Pose(2400, 2450, 2450)
  {
    Action2From(p.lid);
    assert Dispatch(2, pressed) == Some(Action2());
  }

  lemma Action3From(lid: int)
    requires LidCloses(lid)
    ensures Check(Pose(lid, 2450, 2450), Action3(), 0)
    ensures CheckFinal(Pose(lid, 2450, 2450), Action3(), 0) == Pose(2400, 2450, 2450)
  {
  }

  lemma Action3Checked(p: Pose, pressed: bool)
    requires AtRest(p)
    ensures Check(p, Dispatch(3, pressed).value, 0)
    ensures CheckFinal(p, Dispatch(3, pressed).value, 0) == Pose(2400, 2450, 2450)
  {
    Action3From(p.lid);
    assert Dispatch(3, pressed) == Some(Action3());
  }

  lemma Action4From(lid: int)
    requires LidCloses(lid)
    ensures Check(Pose(lid, 2450, 2450), Action4(), 0)
    ensures CheckFinal(Pose(lid, 2450, 2450), Action4(), 0) == Pose(2400, 2450, 2450)
  {
  }

  lemma Action4Checked(p: Pose, pressed: bool)
    requires AtRest(p)
    ensures Check(p, Dispatch(4, pressed).value, 0)
    ensures CheckFinal(p, Dispatch(4, pressed).value, 0) == Pose(2400, 2450, 2450)
  {
    Action4From(p.lid);
    assert Dispatch(4, pressed) == Some(Action4());
  }

  lemma Action5From(lid: int)
    requires LidCloses(lid)
    ensures Check(Pose(lid, 2450, 2450), Action5(), 0)
    ensures CheckFinal(Pose(lid, 2450, 2450), Action5(), 0) == Pose(2400, 2450, 2450)
  {
  }

  lemma Action5Checked(p: Pose, pressed: bool)
    requires AtRest(p)
    ensures Check(p, Dispatch(5, pressed).value, 0)
    ensures CheckFinal(p, Dispatch(5, pressed).value, 0) == Pose(2400, 2450, 2450)
  {
    Action5From(p.lid);
    assert Dispatch(5, pressed) == Some(Action5());
  }

  lemma Action6From(lid: int)
    requires LidCloses(lid)
    ensures Check(Pose(lid, 2450, 2450), Action6(), 0)
    ensures CheckFinal(Pose(lid, 2450, 2450), Action6(), 0) == Pose(2400, 2450, 2450)
  {
  }

  lemma Action6Checked(p: Pose, pressed: bool)
    requires AtRest(p)
    ensures Check(p, Dispatch(6, pressed).value, 0)
    ensures CheckFinal(p, Dispatch(6, pressed).value, 0) == Pose(2400, 2450, 2450)
  {
    Action6From(p.lid);
    assert Dispatch(6, pressed) == Some(Action6());
  }

  lemma Action7From(lid: int)
    requires LidCloses(lid)
    ensures Check(Pose(lid, 2450, 2450), Action7(), 0)
    ensures CheckFinal(Pose(lid, 2450, 2450), Action7(), 0) == Pose(2400, 2450, 2450)
  {
  }

  lemma Action7Checked(p: Pose, pressed: bool)
    requires AtRest(p)
    ensures Check(p, Dispatch(7, pressed).value, 0)
    ensures CheckFinal(p, Dispatch(7, pressed).value, 0) == Pose(2400, 2450, 2450)
  {
    Action7From(p.lid);
    assert Dispatch(7, pressed) == Some(Action7());
  }

  lemma Action8Late()
    ensures Check(Pose(1100, 2450, 2400), Action8(true), 8)
    ensures CheckFinal(Pose(1100, 2450, 2400), Action8(true), 8) == Pose(2400, 2450, 2450)
  {
  }

  lemma Action8Early()
    ensures Check(Pose(1100, 2450, 2450), Action8(true), 2)
    ensures CheckFinal(Pose(1100, 2450, 2450), Action8(true), 2) == DEFAULT_POSE
  {
    Action8Late();
  }

  lemma Action8From(lid: int)
    requires LidCloses(lid)
    ensures Check(Pose(lid, 2450, 2450), Action8(true), 0)
    ensures CheckFinal(Pose(lid, 2450, 2450), Action8(true), 0) == DEFAULT_POSE
  {
    Action8Early();
  }

  lemma Action8Checked(p: Pose, pressed: bool)
    requires AtRest(p)
    ensures Check(p, Dispatch(8, pressed).value, 0)
    ensures AtRest(CheckFinal(p, Dispatch(8, pressed).value, 0))
  {
    if pressed {
      Action8From(p.lid);
      assert Dispatch(8, pressed) == Some(Action8(true));
    } else {
      assert Dispatch(8, pressed) == Some([]);
    }
  }

  lemma Action9From(lid: int)
    requires LidCloses(lid)
    ensures Check(Pose(lid, 2450, 2450), Action9(), 0)
    ensures CheckFinal(Pose(lid, 2450, 2450), Action9(), 0) == Pose(2400, 2450, 2450)
  {
  }

  lemma Action9Checked(p: Pose, pressed: bool)
    requires AtRest(p)
    ensures Check(p, Dispatch(9, pressed).value, 0)
    ensures CheckFinal(p, Dispatch(9, pressed).value, 0) == Pose(2400, 2450, 2450)
  {
    Action9From(p.lid);
    assert Dispatch(9, pressed) == Some(Action9());
  }

  lemma Action10From(lid: int)
    requires LidCloses(lid)
    ensures Check(Pose(lid, 2450, 2450), Action10(), 0)
    ensures CheckFinal(Pose(lid, 2450, 2450), Action10(), 0) == Pose(2400, 2450, 2450)
  {
  }

  lemma Action10Checked(p: Pose, pressed: bool)
    requires AtRest(p)
    ensures Check(p, Dispatch(10, pressed).value, 0)
    ensures CheckFinal(p, Dispatch(10, pressed).value, 0) == Pose(2400, 2450, 2450)
  {
    Action10From(p.lid);
    assert Dispatch(10, pressed) == Some(Action10());
  }

  lemma Action11From(lid: int)
    requires LidCloses(lid)
    ensures Check(Pose(lid, 2450, 2450), Action11(), 0)
    ensures CheckFinal(Pose(lid, 2450, 2450), Action11(), 0) == Pose(2400, 2450, 2450)
  {
  }

  lemma Action11Checked(p: Pose, pressed: bool)
    requires AtRest(p)
    ensures Check(p, Dispatch(11, pressed).value, 0)
    ensures CheckFinal(p, Dispatch(11, pressed).value, 0) == Pose(2400, 2450, 2450)
  {
    Action11From(p.lid);
    assert Dispatch(11, pressed) == Some(Action11());
  }

  lemma Action12From(lid: int)
    requires LidCloses(lid)
    ensures Check(Pose(lid, 2450, 2450), Action12(), 0)
    ensures CheckFinal(Pose(lid, 2450, 2450), Action12(), 0) == Pose(2400, 2450, 2450)
  {
  }

  lemma Action12Checked(p: Pose, pressed: bool)
    requires AtRest(p)
    ensures Check(p, Dispatch(12, pressed).value, 0)
    ensures CheckFinal(p, Dispatch(12, pressed).value, 0) == Pose(2400, 2450, 2450)
  {
    Action12From(p.lid);
    assert Dispatch(12, pressed) == Some(Action12());
  }

  lemma Action13From(lid: int)
    requires LidCloses(lid)
    ensures Check(Pose(lid, 2450, 2450), Action13(), 0)
    ensures CheckFinal(Pose(lid, 2450, 2450), Action13(), 0) == Pose(2400, 2450, 2450)
  {
  }

  lemma Action13Checked(p: Pose, pressed: bool)
    requires AtRest(p)
    ensures Check(p, Dispatch(13, pressed).value, 0)
    ensures CheckFinal(p, Dispatch(13, pressed).value, 0) == Pose(2400, 2450, 2450)
  {
    Action13From(p.lid);
    assert Dispatch(13, pressed) == Some(Action13());
  }

  lemma Action14From(lid: int)
    requires LidCloses(lid)
    ensures Check(Pose(lid, 2450, 2450), Action14(), 0)
    ensures CheckFinal(Pose(lid, 2450, 2450), Action14(), 0) == Pose(2400, 2450, 2450)
  {
  }

  lemma Action14Checked(p: Pose, pressed: bool)
    requires AtRest(p)
    ensures Check(p, Dispatch(14, pressed).value, 0)
    ensures CheckFinal(p, Dispatch(14, pressed).value, 0) == Pose(2400, 2450, 2450)
  {
    Action14From(p.lid);
    assert Dispatch(14, pressed) == Some(Action14());
  }

  lemma Action15From(lid: int)
    requires LidCloses(lid)
    ensures Check(Pose(lid, 2450, 2450), Action15(), 0)
    ensures CheckFinal(Pose(lid, 2450, 2450), Action15(), 0) == Pose(2400, 2450, 2450)
  {
  }

  lemma Action15Checked(p: Pose, pressed: bool)
    requires AtRest(p)
    ensures Check(p, Dispatch(15, pressed).value, 0)
    ensures CheckFinal(p, Dispatch(15, pressed).value, 0) == Pose(2400, 2450, 2450)
  {
    Action15From(p.lid);
    assert Dispatch(15, pressed) == Some(Action15());
  }

  lemma Action16From(lid: int)
    requires LidCloses(lid)
    ensures Check(Pose(lid, 2450, 2450), Action16(), 0)
    ensures CheckFinal(Pose(lid, 2450, 2450), Action16(), 0) == Pose(2400, 2450, 2450)
  {
  }

  lemma Action16Checked(p: Pose, pressed: bool)
    requires AtRest(p)
    ensures Check(p, Dispatch(16, pressed).value, 0)
    ensures CheckFinal(p, Dispatch(16, pressed).value, 0) == Pose(2400, 2450, 2450)
  {
    Action16From(p.lid);
    assert Dispatch(16, pressed) == Some(Action16());
  }

  lemma Action17From(lid: int)
    requires LidCloses(lid)
    ensures Check(Pose(lid, 2450, 2450), Action17(), 0)
    ensures CheckFinal(Pose(lid, 2450, 2450), Action17(), 0) == Pose(2400, 2450, 2450)
  {
  }

  lemma Action17Checked(p: Pose, pressed: bool)
    requires AtRest(p)
    ensures Check(p, Dispatch(17, pressed).value, 0)
    ensures CheckFinal(p, Dispatch(17, pressed).value, 0) == Pose(2400, 2450, 2450)
  {
    Action17From(p.lid);
    assert Dispatch(17, pressed) == Some(Action17());
  }

  lemma Action18From(lid: int)
    requires LidCloses(lid)
    ensures Check(Pose(lid, 2450, 2450), Action18(), 0)
    ensures CheckFinal(Pose(lid, 2450, 2450), Action18(), 0) == Pose(2400, 2450, 2450)
  {
  }

  lemma Action18Checked(p: Pose, pressed: bool)
    requires AtRest(p)
    ensures Check(p, Dispatch(18, pressed).value, 0)
    ensures CheckFinal(p, Dispatch(18, pressed).value, 0) == Pose(2400, 2450, 2450)
  {
    Action18From(p.lid);
    assert Dispatch(18, pressed) == Some(Action18());
  }

  lemma Action19From(lid: int)
    requires LidCloses(lid)
    ensures Check(Pose(lid, 2450, 2450), Action19(), 0)
    ensures CheckFinal(Pose(lid, 2450, 2450), Action19(), 0) == Pose(2400, 2450, 2450)
  {
  }

  lemma Action19Checked(p: Pose, pressed: bool)
    requires AtRest(p)
    ensures Check(p, Dispatch(19, pressed).value, 0)
    ensures CheckFinal(p, Dispatch(19, pressed).value, 0) == Pose(2400, 2450, 2450)
  {
    Action19From(p.lid);
    assert Dispatch(19, pressed) == Some(Action19());
  }

  lemma Action20From(lid: int)
    requires LidCloses(lid)
    ensures Check(Pose(lid, 2450, 2450), Action20(), 0)
    ensures CheckFinal(Pose(lid, 2450, 2450), Action20(), 0) == Pose(2400, 2450, 2450)
  {
  }

  lemma Action20Checked(p: Pose, pressed: bool)
    requires AtRest(p)
    ensures Check(p, Dispatch(20, pressed).value, 0)
    ensures CheckFinal(p, Dispatch(20, pressed).value, 0) == Pose(2400, 2450, 2450)
  {
    Action20From(p.lid);
    assert Dispatch(20, pressed) == Some(Action20());
  }

  lemma Action21From(lid: int)
    requires LidCloses(lid)
    ensures Check(Pose(lid, 2450, 2450), Action21(), 0)
    ensures CheckFinal(Pose(lid, 2450, 2450), Action21(), 0) == Pose(2400, 2450, 2450)
  {
  }

  lemma Action21Checked(p: Pose, pressed: bool)
    requires AtRest(p)
    ensures Check(p, Dispatch(21, pressed).value, 0)
    ensures CheckFinal(p, Dispatch(21, pressed).value, 0) == Pose(2400, 2450, 2450)
  {
    Action21From(p.lid);
    assert Dispatch(21, pressed) == Some(Action21());
  }

  lemma Action22From(lid: int)
    requires LidCloses(lid)
    ensures Check(Pose(lid, 2450, 2450), Action22(), 0)
    ensures CheckFinal(Pose(lid, 2450, 2450), Action22(), 0) == Pose(2400, 2450, 2450)
  {
  }

  lemma Action22Checked(p: Pose, pressed: bool)
    requires AtRest(p)
    ensures Check(p, Dispatch(22, pressed).value, 0)
    ensures CheckFinal(p, Dispatch(22, pressed).value, 0) == Pose(2400, 2450, 2450)
  {
    Action22From(p.lid);
    assert Dispatch(22, pressed) == Some(Action22());
  }

  lemma Action23From(lid: int)
    requires LidCloses(lid)
    ensures Check(Pose(lid, 2450, 2450), Action23(), 0)
    ensures CheckFinal(Pose(lid, 2450, 2450), Action23(), 0) == Pose(2400, 2450, 2450)
  {
  }

  lemma Action23Checked(p: Pose, pressed: bool)
    requires AtRest(p)
    ensures Check(p, Dispatch(23, pressed).value, 0)
    ensures CheckFinal(p, Dispatch(23, pressed).value, 0) == Pose(2400, 2450, 2450)
  {
    Action23From(p.lid);
    assert Dispatch(23, pressed) == Some(Action23());
  }

  lemma Action24From(lid: int)
    requires LidCloses(lid)
    ensures Check(Pose(lid, 2450, 2450), Action24(), 0)
    ensures CheckFinal(Pose(lid, 2450, 2450), Action24(), 0) == Pose(2400, 2450, 2450)
  {
  }

  lemma Action24Checked(p: Pose, pressed: bool)
    requires AtRest(p)
    ensures Check(p, Dispatch(24, pressed).value, 0)
    ensures CheckFinal(p, Dispatch(24, pressed).value, 0) == Pose(2400, 2450, 2450)
  {
    Action24From(p.lid);
    assert Dispatch(24, pressed) == Some(Action24());
  }

  lemma Action25From(lid: int)
    requires LidCloses(lid)
    ensures Check(Pose(lid, 2450, 2450), Action25(), 0)
    ensures CheckFinal(Pose(lid, 2450, 2450), Action25(), 0) == Pose(2400, 2450, 2450)
  {
  }

  lemma Action25Checked(p: Pose, pressed: bool)
    requires AtRest(p)
    ensures Check(p, Dispatch(25, pressed).value, 0)
    ensures CheckFinal(p, Dispatch(25, pressed).value, 0) == Pose(2400, 2450, 2450)
  {
    Action25From(p.lid);
    assert Dispatch(25, pressed) == Some(Action25());
  }

  lemma Action26From(lid: int)
    requires LidCloses(lid)
    ensures Check(Pose(lid, 2450, 2450), Action26(), 0)
    ensures CheckFinal(Pose(lid, 2450, 2450), Action26(), 0) == Pose(2400, 2450, 2450)
  {
  }

  lemma Action26Checked(p: Pose, pressed: bool)
    requires AtRest(p)
    ensures Check(p, Dispatch(26, pressed).value, 0)
    ensures CheckFinal(p, Dispatch(26, pressed).value, 0) == Pose(2400, 2450, 2450)
  {
    Action26From(p.lid);
    assert Dispatch(26, pressed) == Some(Action26());
  }

  lemma Action27From(lid: int)
    requires LidCloses(lid)
    ensures Check(Pose(lid, 2450, 2450), Action27(), 0)
    ensures CheckFinal(Pose(lid, 2450, 2450), Action27(), 0) == Pose(2300, 2450, 2450)
  {
  }

  lemma Action27Checked(p: Pose, pressed: bool)
    requires AtRest(p)
    ensures Check(p, Dispatch(27, pressed).value, 0)
    ensures CheckFinal(p, Dispatch(27, pressed).value, 0) == Pose(2300, 2450, 2450)
  {
    Action27From(p.lid);
    assert Dispatch(27, pressed) == Some(Action27());
  }

  lemma Action28From(lid: int)
    requires LidCloses(lid)
    ensures Check(Pose(lid, 2450, 2450), Action28(), 0)
    ensures CheckFinal(Pose(lid, 2450, 2450), Action28(), 0) == Pose(2300, 2450, 2450)
  {
  }

  lemma Action28Checked(p: Pose, pressed: bool)
    requires AtRest(p)
    ensures Check(p, Dispatch(28, pressed).value, 0)
    ensures CheckFinal(p, Dispatch(28, pressed).value, 0) == Pose(2300, 2450, 2450)
  {
    Action28From(p.lid);
    assert Dispatch(28, pressed) == Some(Action28());
  }

  lemma Action29From(lid: int)
    requires LidCloses(lid)
    ensures Check(Pose(lid, 2450, 2450), Action29(), 0)
    ensures CheckFinal(Pose(lid, 2450, 2450), Action29(), 0) == Pose(2300, 2450, 2450)
  {
  }

  lemma Action29Checked(p: Pose, pressed: bool)
    requires AtRest(p)
    ensures Check(p, Dispatch(29, pressed).value, 0)
    ensures CheckFinal(p, Dispatch(29, pressed).value, 0) == Pose(2300, 2450, 2450)
  {
    Action29From(p.lid);
    assert Dispatch(29, pressed) == Some(Action29());
  }

  lemma Action30From(lid: int)
    requires LidCloses(lid)
    ensures Check(Pose(lid, 2450, 2450), Action30(), 0)
    ensures CheckFinal(Pose(lid, 2450, 2450), Action30(), 0) == Pose(2300, 2450, 2450)
  {
  }

  lemma Action30Checked(p: Pose, pressed: bool)
    requires AtRest(p)
    ensures Check(p, Dispatch(30, pressed).value, 0)
    ensures CheckFinal(p, Dispatch(30, pressed).value, 0) == Pose(2300, 2450, 2450)
  {
    Action30From(p.lid);
    assert Dispatch(30, pressed) == Some(Action30());
  }

  lemma Action31From(lid: int)
    requires LidCloses(lid)
    ensures Check(Pose(lid, 2450, 2450), Action31(), 0)
    ensures CheckFinal(Pose(lid, 2450, 2450), Action31(), 0) == Pose(2400, 2450, 2450)
  {
  }

  lemma Action31Checked(p: Pose, pressed: bool)
    requires AtRest(p)
    ensures Check(p, Dispatch(31, pressed).value, 0)
    ensures CheckFinal(p, Dispatch(31, pressed).value, 0) == Pose(2400, 2450, 2450)
  {
    Action31From(p.lid);
    assert Dispatch(31, pressed) == Some(Action31());
  }

  lemma Action32From(lid: int)
    requires LidCloses(lid)
    ensures Check(Pose(lid, 2450, 2450), Action32(), 0)
    ensures CheckFinal(Pose(lid, 2450, 2450), Action32(), 0) == Pose(2400, 2450, 2450)
  {
  }

  lemma Action32Checked(p: Pose, pressed: bool)
    requires AtRest(p)
    ensures Check(p, Dispatch(32, pressed).value, 0)
    ensures CheckFinal(p, Dispatch(32, pressed).value, 0) == Pose(2400, 2450, 2450)
  {
    Action32From(p.lid);
    assert Dispatch(32, pressed) == Some(Action32());
  }

  lemma Action33From(lid: int)
    requires LidCloses(lid)
    ensures Check(Pose(lid, 2450, 2450), Action33(), 0)
    ensures CheckFinal(Pose(lid, 2450, 2450), Action33(), 0) == Pose(2400, 2450, 2450)
  {
  }

  lemma Action33Checked(p: Pose, pressed: bool)
    requires AtRest(p)
    ensures Check(p, Dispatch(33, pressed).value, 0)
    ensures CheckFinal(p, Dispatch(33, pressed).value, 0) == Pose(2400, 2450, 2450)
  {
    Action33From(p.lid);
    assert Dispatch(33, pressed) == Some(Action33());
  }

  lemma Action34From(lid: int)
    requires LidCloses(lid)
    ensures Check(Pose(lid, 2450, 2450), Action34(), 0)
    ensures CheckFinal(Pose(lid, 2450, 2450), Action34(), 0) == Pose(2400, 2450, 2450)
  {
  }

  lemma Action34Checked(p: Pose, pressed: bool)
    requires AtRest(p)
    ensures Check(p, Dispatch(34, pressed).value, 0)
    ensures CheckFinal(p, Dispatch(34, pressed).value, 0) == Pose(2400, 2450, 2450)
  {
    Action34From(p.lid);
    assert Dispatch(34, pressed) == Some(Action34());
  }

  lemma Action35From(lid: int)
    requires LidCloses(lid)
    ensures Check(Pose(lid, 2450, 2450), Action35(), 0)
    ensures CheckFinal(Pose(lid, 2450, 2450), Action35(), 0) == Pose(2400, 2450, 2450)
  {
  }

  lemma Action35Checked(p: Pose, pressed: bool)
    requires AtRest(p)
    ensures Check(p, Dispatch(35, pressed).value, 0)
    ensures CheckFinal(p, Dispatch(35, pressed).value, 0) == Pose(2400, 2450, 2450)
  {
    Action35From(p.lid);
    assert Dispatch(35, pressed) == Some(Action35());
  }

  lemma Action36From(lid: int)
    requires LidCloses(lid)
    ensures Check(Pose(lid, 2450, 2450), Action36(), 0)
    ensures CheckFinal(Pose(lid, 2450, 2450), Action36(), 0) == Pose(2400, 2450, 2450)
  {
  }

  lemma Action36Checked(p: Pose, pressed: bool)
    requires AtRest(p)
    ensures Check(p, Dispatch(36, pressed).value, 0)
    ensures CheckFinal(p, Dispatch(36, pressed).value, 0) == Pose(2400, 2450, 2450)
  {
    Action36From(p.lid);
    assert Dispatch(36, pressed) == Some(Action36());
  }

  lemma Action37From(lid: int)
    requires LidCloses(lid)
    ensures Check(Pose(lid, 2450, 2450), Action37(), 0)
    ensures CheckFinal(Pose(lid, 2450, 2450), Action37(), 0) == Pose(2400, 2450, 2450)
  {
  }

  lemma Action37Checked(p: Pose, pressed: bool)
    requires AtRest(p)
    ensures Check(p, Dispatch(37, pressed).value, 0)
    ensures CheckFinal(p, Dispatch(37, pressed).value, 0) == Pose(2400, 2450, 2450)
  {
    Action37From(p.lid);
    assert Dispatch(37, pressed) == Some(Action37());
  }

  lemma Action38From(lid: int)
    requires LidCloses(lid)
    ensures Check(Pose(lid, 2450, 2450), Action38(), 0)
    ensures CheckFinal(Pose(lid, 2450, 2450), Action38(), 0) == Pose(2400, 2450, 2450)
  {
  }

  lemma Action38Checked(p: Pose, pressed: bool)
    requires AtRest(p)
    ensures Check(p, Dispatch(38, pressed).value, 0)
    ensures CheckFinal(p, Dispatch(38, pressed).value, 0) == Pose(2400, 2450, 2450)
  {
    Action38From(p.lid);
    assert Dispatch(38, pressed) == Some(Action38());
  }

  lemma Action39From(lid: int)
    requires LidCloses(lid)
    ensures Check(Pose(lid, 2450, 2450), Action39(), 0)
    ensures CheckFinal(Pose(lid, 2450, 2450), Action39(), 0) == Pose(2400, 2450, 2450)
  {
  }

  lemma Action39Checked(p: Pose, pressed: bool)
    requires AtRest(p)
    ensures Check(p, Dispatch(39, pressed).value, 0)
    ensures CheckFinal(p, Dispatch(39, pressed).value, 0) == Pose(2400, 2450, 2450)
  {
    Action39From(p.lid);
    assert Dispatch(39, pressed) == Some(Action39());
  }

  lemma Action40From(lid: int)
    requires LidCloses(lid)
    ensures Check(Pose(lid, 2450, 2450), Action40(), 0)
    ensures CheckFinal(Pose(lid, 2450, 2450), Action40(), 0) == Pose(2400, 2450, 2450)
  {
  }

  lemma Action40Checked(p: Pose, pressed: bool)
    requires AtRest(p)
    ensures Check(p, Dispatch(40, pressed).value, 0)
    ensures CheckFinal(p, Dispatch(40, pressed).value, 0) == Pose(2400, 2450, 2450)
  {
    Action40From(p.lid);
    assert Dispatch(40, pressed) == Some(Action40());
  }

  lemma Action41From(lid: int)
    requires LidCloses(lid)
    ensures Check(Pose(lid, 2450, 2450), Action41(), 0)
    ensures CheckFinal(Pose(lid, 2450, 2450), Action41(), 0) == Pose(2400, 2450, 2450)
  {
  }

  lemma Action41Checked(p: Pose, pressed: bool)
    requires AtRest(p)
    ensures Check(p, Dispatch(41, pressed).value, 0)
    ensures CheckFinal(p, Dispatch(41, pressed).value, 0) == Pose(2400, 2450, 2450)
  {
    Action41From(p.lid);
    assert Dispatch(41, pressed) == Some(Action41());
  }

  lemma Action42From(lid: int)
    requires LidCloses(lid)
    ensures Check(Pose(lid, 2450, 2450), Action42(), 0)
    ensures CheckFinal(Pose(lid, 2450, 2450), Action42(), 0) == Pose(2400, 2450, 2450)
  {
  }

  lemma Action42Checked(p: Pose, pressed: bool)
    requires AtRest(p)
    ensures Check(p, Dispatch(42, pressed).value, 0)
    ensures CheckFinal(p, Dispatch(42, pressed).value, 0) == Pose(2400, 2450, 2450)
  {
    Action42From(p.lid);
    assert Dispatch(42, pressed) == Some(Action42());
  }

  lemma Action43From(lid: int)
    requires LidCloses(lid)
    ensures Check(Pose(lid, 2450, 2450), Action43(), 0)
    ensures CheckFinal(Pose(lid, 2450, 2450), Action43(), 0) == Pose(2400, 2450, 2450)
  {
  }

  lemma Action43Checked(p: Pose, pressed: bool)
    requires AtRest(p)
    ensures Check(p, Dispatch(43, pressed).value, 0)
    ensures CheckFinal(p, Dispatch(43, pressed).value, 0) == Pose(2400, 2450, 2450)
  {
    Action43From(p.lid);
    assert Dispatch(43, pressed) == Some(Action43());
  }

  lemma Action44From(lid: int)
    requires LidCloses(lid)
    ensures Check(Pose(lid, 2450, 2450), Action44(), 0)
    ensures CheckFinal(Pose(lid, 2450, 2450), Action44(), 0) == Pose(2400, 2450, 2450)
  {
  }

  lemma Action44Checked(p: Pose, pressed: bool)
    requires AtRest(p)
    ensures Check(p, Dispatch(44, pressed).value, 0)
    ensures CheckFinal(p, Dispatch(44, pressed).value, 0) == Pose(2400, 2450, 2450)
  {
    Action44From(p.lid);
    assert Dispatch(44, pressed) == Some(Action44());
  }

  lemma Action45From(lid: int)
    requires LidCloses(lid)
    ensures Check(Pose(lid, 2450, 2450), Action45(), 0)
    ensures CheckFinal(Pose(lid, 2450, 2450), Action45(), 0) == Pose(2400, 2450, 2450)
  {
  }

  lemma Action45Checked(p: Pose, pressed: bool)
    requires AtRest(p)
    ensures Check(p, Dispatch(45, pressed).value, 0)
    ensures CheckFinal(p, Dispatch(45, pressed).value, 0) == Pose(2400, 2450, 2450)
  {
    Action45From(p.lid);
    assert Dispatch(45, pressed) == Some(Action45());
  }

  lemma Action46From(lid: int)
    requires LidCloses(lid)
    ensures Check(Pose(lid, 2450, 2450), Action46(), 0)
    ensures CheckFinal(Pose(lid, 2450, 2450), Action46(), 0) == Pose(2400, 2450, 2450)
  {
  }

  lemma Action46Checked(p: Pose, pressed: bool)
    requires AtRest(p)
    ensures Check(p, Dispatch(46, pressed).value, 0)
    ensures CheckFinal(p, Dispatch(46, pressed).value, 0) == Pose(2400, 2450, 2450)
  {
    Action46From(p.lid);
    assert Dispatch(46, pressed) == Some(Action46());
  }

  lemma Action47From(lid: int)
    requires LidCloses(lid)
    ensures Check(Pose(lid, 2450, 2450), Action47(), 0)
    ensures CheckFinal(Pose(lid, 2450, 2450), Action47(), 0) == Pose(2400, 2450, 2450)
  {
  }

  lemma Action47Checked(p: Pose, pressed: bool)
    requires AtRest(p)
    ensures Check(p, Dispatch(47, pressed).value, 0)
    ensures CheckFinal(p, Dispatch(47, pressed).value, 0) == Pose(2400, 2450, 2450)
  {
    Action47From(p.lid);
    assert Dispatch(47, pressed) == Some(Action47());
  }

  lemma Action48From(lid: int)
    requires LidCloses(lid)
    ensures Check(Pose(lid, 2450, 2450), Action48(), 0)
    ensures CheckFinal(Pose(lid, 2450, 2450), Action48(), 0) == Pose(2400, 2450, 2450)
  {
  }

  lemma Action48Checked(p: Pose, pressed: bool)
    requires AtRest(p)
    ensures Check(p, Dispatch(48, pressed).value, 0)
    ensures CheckFinal(p, Dispatch(48, pressed).value, 0) == Pose(2400, 2450, 2450)
  {
    Action48From(p.lid);
    assert Dispatch(48, pressed) == Some(Action48());
  }

  lemma Action49From(lid: int)
    requires LidCloses(lid)
    ensures Check(Pose(lid, 2450, 2450), Action49(), 0)
    ensures CheckFinal(Pose(lid, 2450, 2450), Action49(), 0) == Pose(2400, 2450, 2450)
  {
  }

  lemma Action49Checked(p: Pose, pressed: bool)
    requires AtRest(p)
    ensures Check(p, Dispatch(49, pressed).value, 0)
    ensures CheckFinal(p, Dispatch(49, pressed).value, 0) == Pose(2400, 2450, 2450)
  {
    Action49From(p.lid);
    assert Dispatch(49, pressed) == Some(Action49());
  }

  lemma Action50From(lid: int)
    requires LidCloses(lid)
    ensures Check(Pose(lid, 2450, 2450), Action50(), 0)
    ensures CheckFinal(Pose(lid, 2450, 2450), Action50(), 0) == Pose(2400, 2450, 2450)
  {
  }

  lemma Action50Checked(p: Pose, pressed: bool)
    requires AtRest(p)
    ensures Check(p, Dispatch(50, pressed).value, 0)
    ensures CheckFinal(p, Dispatch(50, pressed).value, 0) == Pose(2400, 2450, 2450)
  {
    Action50From(p.lid);
    assert Dispatch(50, pressed) == Some(Action50());
  }

  /** The validator accepts the drawn action from any rest pose, and it ends at rest. */
  lemma DispatchChecked(n: int, pressed: bool, p: Pose)
    requires 1 <= n <= 50 && AtRest(p)
    ensures Check(p, Dispatch(n, pressed).value, 0)
    ensures AtRest(CheckFinal(p, Dispatch(n, pressed).value, 0))
  {
    match n
    case 1 => Action1Checked(p, pressed);
    case 2 => Action2Checked(p, pressed);
    case 3 => Action3Checked(p, pressed);
    case 4 => Action4Checked(p, pressed);
    case 5 => Action5Checked(p, pressed);
    case 6 => Action6Checked(p, pressed);
    case 7 => Action7Checked(p, pressed);
    case 8 => Action8Checked(p, pressed);
    case 9 => Action9Checked(p, pressed);
    case 10 => Action10Checked(p, pressed);
    case 11 => Action11Checked(p, pressed);
    case 12 => Action12Checked(p, pressed);
    case 13 => Action13Checked(p, pressed);
    case 14 => Action14Checked(p, pressed);
    case 15 => Action15Checked(p, pressed);
    case 16 => Action16Checked(p, pressed);
    case 17 => Action17Checked(p, pressed);
    case 18 => Action18Checked(p, pressed);
    case 19 => Action19Checked(p, pressed);
    case 20 => Action20Checked(p, pressed);
    case 21 => Action21Checked(p, pressed);
    case 22 => Action22Checked(p, pressed);
    case 23 => Action23Checked(p, pressed);
    case 24 => Action24Checked(p, pressed);
    case 25 => Action25Checked(p, pressed);
    case 26 => Action26Checked(p, pressed);
    case 27 => Action27Checked(p, pressed);
    case 28 => Action28Checked(p, pressed);
    case 29 => Action29Checked(p, pressed);
    case 30 => Action30Checked(p, pressed);
    case 31 => Action31Checked(p, pressed);
    case 32 => Action32Checked(p, pressed);
    case 33 => Action33Checked(p, pressed);
    case 34 => Action34Checked(p, pressed);
    case 35 => Action35Checked(p, pressed);
    case 36 => Action36Checked(p, pressed);
    case 37 => Action37Checked(p, pressed);
    case 38 => Action38Checked(p, pressed);
    case 39 => Action39Checked(p, pressed);
    case 40 => Action40Checked(p, pressed);
    case 41 => Action41Checked(p, pressed);
    case 42 => Action42Checked(p, pressed);
    case 43 => Action43Checked(p, pressed);
    case 44 => Action44Checked(p, pressed);
    case 45 => Action45Checked(p, pressed);
    case 46 => Action46Checked(p, pressed);
    case 47 => Action47Checked(p, pressed);
    case 48 => Action48Checked(p, pressed);
    case 49 => Action49Checked(p, pressed);
    case 50 => Action50Checked(p, pressed);
  }

  /**
   * Whatever number is drawn, the commands it issues from a rest pose keep
   * the rule of useless_machine.py:101 and leave the lid closed and the arm
   * and flag fully closed, ready for the next press.
   */
  lemma CatalogSafe(n: int, pressed: bool, p: Pose)
    requires 1 <= n <= 50 && AtRest(p)
    ensures Dispatch(n, pressed).Some?
    ensures SafeFrom(p, Expand(Dispatch(n, pressed).value))
    ensures AtRest(Final(p, Expand(Dispatch(n, pressed).value)))
  {
    var c := Dispatch(n, pressed).value;
    DispatchChecked(n, pressed, p);
    Sound(p, c, 0);
    assert c[0..] == c;
  }
}
