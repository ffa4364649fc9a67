/** The click economy of the `Click` behaviour: the gold balance, the gold
    earned per click and the price of the next upgrade, the label and the
    upgrade button the UI derives from them, and the handle of the timed
    face-change effect that a click restarts. */
module Clicker {
  import opened Base
  import opened Decimal

  // ---------------------------------------------------------------------
  // The economy as a value
  // ---------------------------------------------------------------------

  /** currentGold, clickGold and needGold. */
  datatype Economy = Economy(gold: int, perClick: int, cost: int)

  /** The field initialisers (Click.cs keeps them unless the scene overrides
      the serialized values). */
  const Initial: Economy := Economy(0, 1, 10)

  /** The balance never goes negative; a click always earns something and an
      upgrade always costs something. */
  predicate Inv(e: Economy) {
    e.gold >= 0 && e.perClick >= 1 && e.cost >= 1
  }

  predicate CanUpgrade(e: Economy) {
    e.gold >= e.cost
  }

  /** x <= r < x + 1: r is the least integer not below x. */
  ghost predicate IsCeiling(r: int, x: real) {
    x <= r as real < x + 1.0
  }

  /** `Mathf.CeilToInt(n * 1.5f)` where the float product is exact. */
  function CeilOneAndHalf(n: int): (r: int)
    ensures IsCeiling(r, 1.5 * n as real)
    ensures n >= 1 ==> r > n
  {
    (3 * n + 1) / 2
  }

  /** One click. */
  function Earn(e: Economy): (r: Economy)
    ensures Inv(e) ==> Inv(r) && r.gold > e.gold
  {
    e.(gold := e.gold + e.perClick)
  }

  /** One press of the upgrade button. */
  function Upgrade(e: Economy): (r: Economy)
    ensures r == e <==> !CanUpgrade(e)
    ensures CanUpgrade(e) ==>
      r.gold + e.cost == e.gold && r.perClick == e.perClick + 1 && IsCeiling(r.cost, 1.5 * e.cost as real)
    ensures Inv(e) ==> Inv(r) && r.cost >= e.cost
    ensures Inv(e) && CanUpgrade(e) ==> r.cost > e.cost
  {
    if !CanUpgrade(e) then e
    else Economy(e.gold - e.cost, e.perClick + 1, CeilOneAndHalf(e.cost))
  }

  /** n clicks in a row. */
  function Clicks(e: Economy, n: nat): Economy {
    if n == 0 then e else Earn(Clicks(e, n - 1))
  }

  /** n clicks earn exactly n times the perClick and change nothing else. */
  lemma {:induction false} ClicksEarn(e: Economy, n: nat)
    ensures Clicks(e, n) == Economy(e.gold + n * e.perClick, e.perClick, e.cost)
  {
    if n > 0 {
      ClicksEarn(e, n - 1);
      assert (n - 1) * e.perClick + e.perClick == n * e.perClick;
    }
  }

  /** The two buttons a player can press. */
  datatype Press = PressSpeaki | PressUpgrade

  function Step(e: Economy, p: Press): Economy {
    match p
    case PressSpeaki => Earn(e)
    case PressUpgrade => Upgrade(e)
  }

  /** The economy after a sequence of presses. */
  function Play(e: Economy, presses: seq<Press>): Economy
    decreases |presses|
  {
    if presses == [] then e else Play(Step(e, presses[0]), presses[1..])
  }

  /** The invariant holds from the defaults and after any sequence of presses;
      neither the yield nor the price ever goes down. */
  lemma {:induction false} PlayKeepsInv(e: Economy, presses: seq<Press>)
    requires Inv(e)
    ensures Inv(Play(e, presses))
    ensures Play(e, presses).perClick >= e.perClick && Play(e, presses).cost >= e.cost
    decreases |presses|
  {
    if presses != [] {
      PlayKeepsInv(Step(e, presses[0]), presses[1..]);
    }
  }

  // ---------------------------------------------------------------------
  // What UpdateUI derives
  // ---------------------------------------------------------------------

  /** The currency unit in the label literal, as the source file spells it. */
  const GoldUnit: string := "\U{B0}\U{F1}\U{B5}\U{E5}"

  /** The literal text between the two numbers of the label, and after them. */
  const LabelInfix: string := " " + GoldUnit + "\n(UP: "
  const LabelSuffix: string := "G)"

  /** `$"{currentGold} <unit>\n(UP: {needGold}G)"` */
  function Label(gold: int, need: int): string {
    IntToDecimal(gold) + LabelInfix + IntToDecimal(need) + LabelSuffix
  }

  /** Index of the first space of s, or |s| if there is none. */
  function IndexOfSpace(s: string): (k: nat)
    ensures k <= |s|
    ensures forall i :: 0 <= i < k ==> s[i] != ' '
    ensures k < |s| ==> s[k] == ' '
  {
    if s == [] || s[0] == ' ' then 0 else 1 + IndexOfSpace(s[1..])
  }

  /** Reads the gold balance and the upgrade price back out of a label. */
  function ParseLabel(s: string): Option<(int, int)> {
    var k := IndexOfSpace(s);
    if k + |LabelInfix| + |LabelSuffix| <= |s|
       && s[k..k + |LabelInfix|] == LabelInfix
       && s[|s| - |LabelSuffix|..] == LabelSuffix
    then
      var gold := ParseInt(s[..k]);
      var need := ParseInt(s[k + |LabelInfix|..|s| - |LabelSuffix|]);
      if gold.Some? && need.Some? then Some((gold.value, need.value)) else None
    else None
  }

  /** The label determines both numbers it shows. */
  lemma LabelRoundTrip(gold: int, need: int)
    ensures ParseLabel(Label(gold, need)) == Some((gold, need))
  {
    var g, n := IntToDecimal(gold), IntToDecimal(need);
    var s := Label(gold, need);
    assert s == g + (LabelInfix + n + LabelSuffix);
    assert s[|g|] == ' ';
    var k := IndexOfSpace(s);
    assert k == |g|;
    assert s[..k] == g;
    assert s[k..k + |LabelInfix|] == LabelInfix;
    assert s[|s| - |LabelSuffix|..] == LabelSuffix;
    assert s[k + |LabelInfix|..|s| - |LabelSuffix|] == n;
    ParseIntToDecimal(gold);
    ParseIntToDecimal(need);
  }

  /** From the defaults: one click shows 1 gold with the upgrade disabled; ten
      clicks enable it; the upgrade then leaves 0 gold, perClick 2, price 15. */
  lemma DefaultScenario()
    ensures Clicks(Initial, 1) == Economy(1, 1, 10) && !CanUpgrade(Clicks(Initial, 1))
    ensures Label(1, 10) == "1" + LabelInfix + "10" + LabelSuffix
    ensures Clicks(Initial, 10) == Economy(10, 1, 10) && CanUpgrade(Clicks(Initial, 10))
    ensures Upgrade(Clicks(Initial, 10)) == Economy(0, 2, 15)
  {
    ClicksEarn(Initial, 10);
    assert NatToDecimal(10) == NatToDecimal(1) + [DigitChar(0)];
  }

  // ---------------------------------------------------------------------
  // The behaviour
  // ---------------------------------------------------------------------

  /** The sprite the character image shows. */
  datatype Face = SceneFace | DefaultFace | ClickFace

  /** The coroutine handles of a field that holds at most one. */
  function HandleSet(h: Option<nat>): set<nat> {
    if h.Some? then {h.value} else {}
  }

  /** Bound on needGold below which `needGold * 1.5f` is exact in single
      precision: 3 * needGold must fit in the 24-bit significand. */
  const FloatExactLimit: int := 0x100_0000

  class Click {
    const hasClickSprite: bool
    const hasDefaultSprite: bool

    var currentGold: int
    var clickGold: int
    var needGold: int

    /** goldText.text and upgradeBtn.interactable */
    var goldText: string
    var upgradeInteractable: bool

    /** characterImg.sprite */
    var sprite: Face

    /** faceCoroutine, the face coroutines the scheduler still runs, and the
        next coroutine identity it hands out */
    var faceCoroutine: Option<nat>
    var runningFaces: set<nat>
    var nextCoroutine: nat

    function State(): Economy
      reads this
    {
      Economy(currentGold, clickGold, needGold)
    }

    ghost predicate Valid()
      reads this
    {
      Inv(State()) && IsInt32(currentGold) && IsInt32(clickGold) && IsInt32(needGold)
      && goldText == Label(currentGold, needGold)
      && upgradeInteractable == CanUpgrade(State())
      && runningFaces == HandleSet(faceCoroutine)
      && (forall h :: h in runningFaces ==> h < nextCoroutine)
    }

    /** The serialized starting values (the field initialisers unless the
        scene overrides them) followed by Awake. */
    constructor Awake(currentGold: int, clickGold: int, needGold: int,
                      hasClickSprite: bool, hasDefaultSprite: bool)
      requires Inv(Economy(currentGold, clickGold, needGold))
      requires IsInt32(currentGold) && IsInt32(clickGold) && IsInt32(needGold)
      ensures Valid() && State() == Economy(currentGold, clickGold, needGold)
      ensures this.hasClickSprite == hasClickSprite && this.hasDefaultSprite == hasDefaultSprite
      ensures sprite == (if hasDefaultSprite then DefaultFace else SceneFace)
      ensures faceCoroutine == None
    {
      this.hasClickSprite := hasClickSprite;
      this.hasDefaultSprite := hasDefaultSprite;
      this.currentGold, this.clickGold, this.needGold := currentGold, clickGold, needGold;
      faceCoroutine, runningFaces, nextCoroutine := None, {}, 0;
      sprite := if hasDefaultSprite then DefaultFace else SceneFace;
      new;
      UpdateUI();
    }

    method UpdateUI()
      modifies this`goldText, this`upgradeInteractable
      ensures goldText == Label(currentGold, needGold)
      ensures upgradeInteractable == CanUpgrade(State())
    {
      goldText := Label(currentGold, needGold);
      upgradeInteractable := currentGold >= needGold;
    }

    method ClickSpeaki()
      requires Valid()
      requires IsInt32(currentGold + clickGold)
      modifies this
      ensures Valid()
      ensures State() == Earn(old(State()))
      ensures currentGold == old(currentGold) + old(clickGold)
      ensures clickGold == old(clickGold) && needGold == old(needGold)
      ensures faceCoroutine == Some(old(nextCoroutine)) && runningFaces == {old(nextCoroutine)}
      ensures old(faceCoroutine).Some? ==> old(faceCoroutine).value !in runningFaces
      ensures sprite == (if hasClickSprite then ClickFace else old(sprite))
    {
      RestartFaceExpression();
      currentGold := currentGold + clickGold;
      UpdateUI();
    }

    /** Stop the running face coroutine, if any, and start a new one; the new
        coroutine runs synchronously up to its first wait. */
    method RestartFaceExpression()
      requires Valid()
      modifies this`faceCoroutine, this`runningFaces, this`nextCoroutine, this`sprite
      ensures Valid()
      ensures faceCoroutine == Some(old(nextCoroutine)) && runningFaces == {old(nextCoroutine)}
      ensures nextCoroutine > old(nextCoroutine)
      ensures sprite == (if hasClickSprite then ClickFace else old(sprite))
    {
      if faceCoroutine.Some? {
        runningFaces := runningFaces - {faceCoroutine.value};
      }
      var h := nextCoroutine;
      nextCoroutine := nextCoroutine + 1;
      runningFaces := runningFaces + {h};
      faceCoroutine := Some(h);
      if hasClickSprite {
        sprite := ClickFace;
      }
    }

    /** A running face coroutine h resumes after faceDuration and finishes. */
    method FinishFaceExpression(h: nat)
      requires Valid() && h in runningFaces
      modifies this`faceCoroutine, this`runningFaces, this`sprite
      ensures Valid()
      ensures faceCoroutine == None && runningFaces == {}
      ensures sprite == (if hasDefaultSprite then DefaultFace else old(sprite))
    {
      if hasDefaultSprite {
        sprite := DefaultFace;
      }
      faceCoroutine := None;
      runningFaces := runningFaces - {h};
    }

    method ClickUpgrade()
      requires Valid()
      requires CanUpgrade(State()) ==> 3 * needGold < FloatExactLimit && IsInt32(clickGold + 1)
      modifies this
      ensures Valid()
      ensures State() == Upgrade(old(State()))
      ensures !old(CanUpgrade(State())) ==> unchanged(this)
      ensures old(CanUpgrade(State())) ==>
        currentGold == old(currentGold) - old(needGold) && 0 <= currentGold
        && clickGold == old(clickGold) + 1
        && IsCeiling(needGold, 1.5 * old(needGold) as real) && needGold > old(needGold)
      ensures faceCoroutine == old(faceCoroutine) && runningFaces == old(runningFaces)
      ensures nextCoroutine == old(nextCoroutine) && sprite == old(sprite)
    {
      if currentGold < needGold {
        return;
      }
      currentGold := currentGold - needGold;
      clickGold := clickGold + 1;
      needGold := CeilOneAndHalf(needGold);
      UpdateUI();
    }
  }

  /** A client of the class: one click from the defaults, then an upgrade
      attempt that is refused. */
  method FirstClick() returns (shown: string, enabled: bool, goldAfterUpgrade: int)
    ensures shown == "1" + LabelInfix + "10" + LabelSuffix
    ensures !enabled
    ensures goldAfterUpgrade == 1
  {
    var c := new Click.Awake(Initial.gold, Initial.perClick, Initial.cost, true, true);
    c.ClickSpeaki();
    DefaultScenario();
    shown, enabled := c.goldText, c.upgradeInteractable;
    c.ClickUpgrade();
    goldAfterUpgrade := c.currentGold;
  }
}
