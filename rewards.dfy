/** The reward formula of `saveRecording` (src/App.js:130):
      earned = floor(duration * 15) + floor(random * 25) + 10
    Durations are natural numbers of tenths of a second (the feed shows them with one
    decimal), and the random draw `floor(random * 25)` is a parameter in [0, 24]. */
module Rewards {

  /** The largest value of `Math.floor(Math.random() * 25)`. */
  const MaxDraw: nat := 24
  /** The constant part every clip earns. */
  const BaseReward: nat := 10
  /** Tokens per whole second of audio. */
  const TokensPerSecond: nat := 15

  /** `Math.floor(duration * 15)` for a duration of `tenths` tenths of a second. */
  function DurationTokens(tenths: nat): (t: nat)
    ensures 10 * t <= tenths * TokensPerSecond < 10 * (t + 1)
  {
    tenths * TokensPerSecond / 10
  }

  /** The tokens a clip of `tenths` tenths of a second earns with random draw `draw`. */
  function EarnedTokens(tenths: nat, draw: nat): (t: nat)
    requires draw <= MaxDraw
    ensures t >= BaseReward
    ensures DurationTokens(tenths) + BaseReward <= t <= DurationTokens(tenths) + BaseReward + MaxDraw
    ensures t - DurationTokens(tenths) - BaseReward == draw
  {
    DurationTokens(tenths) + draw + BaseReward
  }

  /** A longer clip never earns fewer tokens for the same draw. */
  lemma EarnedTokensMonotone(shorter: nat, longer: nat, draw: nat)
    requires shorter <= longer && draw <= MaxDraw
    ensures EarnedTokens(shorter, draw) <= EarnedTokens(longer, draw)
  {
    assert shorter * TokensPerSecond <= longer * TokensPerSecond;
  }

  /** A clip of whole seconds earns exactly 15 tokens per second plus the draw and the base. */
  lemma EarnedTokensWholeSeconds(seconds: nat, draw: nat)
    requires draw <= MaxDraw
    ensures EarnedTokens(10 * seconds, draw) == TokensPerSecond * seconds + draw + BaseReward
  {
    assert 10 * seconds * TokensPerSecond == 10 * (TokensPerSecond * seconds);
  }

  /** A clip of 3.2 seconds earns between 58 and 82 tokens. */
  lemma EarnedTokensForThreePointTwoSeconds(draw: nat)
    requires draw <= MaxDraw
    ensures 58 <= EarnedTokens(32, draw) <= 82
  {
    assert DurationTokens(32) == 48;
  }
}
