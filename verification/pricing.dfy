/**
 Turn prices (relay/internal/usage/pricing.go) in exact arithmetic: prices in
 tenths of an RMB per million tokens, the 20% markup as a factor of 12 tenths.
 */
module Pricing {
  datatype Price = Price(tokenIn: int, tokenOut: int)

  function Table(model: string): Price {
    match model
    case "deepseek-chat" => Price(10, 20)
    case "deepseek-v4-pro" => Price(20, 80)
    case "gpt-4o" => Price(180, 720)
    case "gpt-5.5" => Price(250, 1000)
    case "gpt-5.4-mini" => Price(30, 120)
    case "claude-sonnet-4-0" => Price(220, 1100)
    case "claude-sonnet-4-6" => Price(220, 1100)
    case "claude-opus-4-1" => Price(1100, 5500)
    case "claude-opus-4-7" => Price(1100, 5500)
    case "gemini-2.5-pro" => Price(90, 720)
    case "kimi-k2.6" => Price(15, 60)
    case "glm-4.7" => Price(5, 15)
    case "qwen3-coder-next" => Price(40, 160)
    case "MiniMax-M2.7" => Price(80, 240)
    case _ => Price(10, 20)
  }

  /** Millionths of a cent, markup included: (tenths of RMB per million) * 10 cents * 1.2. */
  function Scaled(model: string, tokensIn: int, tokensOut: int): int {
    12 * (tokensIn * Table(model).tokenIn + tokensOut * Table(model).tokenOut)
  }

  function Ceil(n: int): int { -((-n) / 1_000_000) }

  function CostCents(model: string, tokensIn: int, tokensOut: int): int {
    if tokensIn <= 0 && tokensOut <= 0 then 0
    else
      var cents := Ceil(Scaled(model, tokensIn, tokensOut));
      if cents < 1 then 1 else cents
  }

  datatype Tokens = Tokens(tokensIn: int, tokensOut: int)

  function SumCost(model: string, turns: seq<Tokens>): int {
    if turns == [] then 0
    else SumCost(model, turns[..|turns| - 1]) + CostCents(model, turns[|turns| - 1].tokensIn, turns[|turns| - 1].tokensOut)
  }

  function Total(turns: seq<Tokens>): Tokens {
    if turns == [] then Tokens(0, 0)
    else
      var t := Total(turns[..|turns| - 1]);
      Tokens(t.tokensIn + turns[|turns| - 1].tokensIn, t.tokensOut + turns[|turns| - 1].tokensOut)
  }

  /** A turn that used some tokens and no negative count. */
  predicate NonEmpty(t: Tokens) { t.tokensIn >= 0 && t.tokensOut >= 0 && t.tokensIn + t.tokensOut > 0 }

  /** The price of a turn, for any counts: nothing without tokens; otherwise the least whole number of
      cents, and at least one, that covers 1.2 times the price per million. */
  lemma CostIsCeiling(model: string, tokensIn: int, tokensOut: int)
    ensures tokensIn <= 0 && tokensOut <= 0 ==> CostCents(model, tokensIn, tokensOut) == 0
    ensures tokensIn > 0 || tokensOut > 0 ==>
              var cents, price := CostCents(model, tokensIn, tokensOut),
                                  12 * tokensIn * Table(model).tokenIn + 12 * tokensOut * Table(model).tokenOut;
              cents >= 1 && cents * 1_000_000 >= price && (cents == 1 || (cents - 1) * 1_000_000 < price)
  {
    var p := Table(model);
    assert 12 * tokensIn * p.tokenIn + 12 * tokensOut * p.tokenOut == Scaled(model, tokensIn, tokensOut);
  }

  /** A million tokens, in and out, in cents with the markup: the price list. */
  lemma PriceList()
    ensures Million("deepseek-chat") == (120, 240) && Million("deepseek-v4-pro") == (240, 960)
    ensures Million("gpt-4o") == (2160, 8640) && Million("gpt-5.5") == (3000, 12000) && Million("gpt-5.4-mini") == (360, 1440)
    ensures Million("claude-sonnet-4-0") == (2640, 13200) == Million("claude-sonnet-4-6")
    ensures Million("claude-opus-4-1") == (13200, 66000) == Million("claude-opus-4-7")
    ensures Million("gemini-2.5-pro") == (1080, 8640) && Million("kimi-k2.6") == (180, 720)
    ensures Million("glm-4.7") == (60, 180) && Million("qwen3-coder-next") == (480, 1920) && Million("MiniMax-M2.7") == (960, 2880)
    ensures Million("some other model") == Million("deepseek-chat")
  {
    forall model { MillionTokens(model); }
  }

  lemma CeilExact(n: int)
    ensures Ceil(n * 1_000_000) == n
  {}

  lemma MillionTokens(model: string)
    ensures Million(model) == (12 * Table(model).tokenIn, 12 * Table(model).tokenOut)
  {
    var p := Table(model);
    CeilExact(12 * p.tokenIn);
    CeilExact(12 * p.tokenOut);
    assert Scaled(model, 1_000_000, 0) == 12 * p.tokenIn * 1_000_000;
    assert Scaled(model, 0, 1_000_000) == 12 * p.tokenOut * 1_000_000;
  }

  function Million(model: string): (int, int) { (CostCents(model, 1_000_000, 0), CostCents(model, 0, 1_000_000)) }

  lemma CostOfSome(model: string, t: Tokens)
    requires NonEmpty(t)
    ensures CostCents(model, t.tokensIn, t.tokensOut) == Ceil(Scaled(model, t.tokensIn, t.tokensOut)) >= 1
    ensures Scaled(model, t.tokensIn, t.tokensOut) > 0
  {
    var p := Table(model);
    assert t.tokensIn * p.tokenIn >= 0 && t.tokensOut * p.tokenOut >= 0;
    if t.tokensIn > 0 { assert t.tokensIn * p.tokenIn > 0; } else { assert t.tokensOut * p.tokenOut > 0; }
  }

  lemma ScaledAdds(model: string, a: Tokens, b: Tokens)
    ensures Scaled(model, a.tokensIn + b.tokensIn, a.tokensOut + b.tokensOut) ==
            Scaled(model, a.tokensIn, a.tokensOut) + Scaled(model, b.tokensIn, b.tokensOut)
  {
    var p := Table(model);
    assert (a.tokensIn + b.tokensIn) * p.tokenIn == a.tokensIn * p.tokenIn + b.tokensIn * p.tokenIn;
    assert (a.tokensOut + b.tokensOut) * p.tokenOut == a.tokensOut * p.tokenOut + b.tokensOut * p.tokenOut;
  }

  lemma CeilOfSum(x: int, y: int)
    ensures Ceil(x + y) <= Ceil(x) + Ceil(y) <= Ceil(x + y) + 1
  {
  }

  /** A bill of n turns priced x is close; one more turn priced y keeps it close. */
  lemma OneMoreTurn(x: int, y: int, sum: int, n: nat)
    requires Ceil(x) <= sum <= Ceil(x) + n - 1
    ensures Ceil(x + y) <= sum + Ceil(y) <= Ceil(x + y) + n
  {
    CeilOfSum(x, y);
  }

  ghost predicate AllNonEmpty(turns: seq<Tokens>) { forall i :: 0 <= i < |turns| ==> NonEmpty(turns[i]) }

  lemma {:induction false} TotalIsNonEmpty(turns: seq<Tokens>)
    requires turns != [] && AllNonEmpty(turns)
    ensures NonEmpty(Total(turns))
  {
    if |turns| > 1 { TotalIsNonEmpty(turns[..|turns| - 1]); }
  }

  function ScaledOf(model: string, t: Tokens): int { Scaled(model, t.tokensIn, t.tokensOut) }

  lemma {:induction false} CeilingsAreClose(model: string, turns: seq<Tokens>)
    requires turns != [] && AllNonEmpty(turns)
    ensures Ceil(ScaledOf(model, Total(turns))) <= SumCost(model, turns) <= Ceil(ScaledOf(model, Total(turns))) + |turns| - 1
  {
    var init, last := turns[..|turns| - 1], turns[|turns| - 1];
    CostOfSome(model, last);
    ScaledAdds(model, Total(init), last);
    if init == [] {
      assert Total(turns) == last && SumCost(model, init) == 0;
    } else {
      CeilingsAreClose(model, init);
      OneMoreTurn(ScaledOf(model, Total(init)), ScaledOf(model, last), SumCost(model, init), |init|);
    }
  }

  /** Billing turn by turn costs at least the price of the total, and at most n - 1 cents more. */
  lemma SplitBillIsClose(model: string, turns: seq<Tokens>)
    requires turns != [] && AllNonEmpty(turns)
    ensures var total := CostCents(model, Total(turns).tokensIn, Total(turns).tokensOut);
            total <= SumCost(model, turns) <= total + |turns| - 1
  {
    TotalIsNonEmpty(turns);
    CostOfSome(model, Total(turns));
    CeilingsAreClose(model, turns);
  }
}
