/**
 * The web client's offline chat helpers (apps/web/src/lib/chat.ts): the
 * opening message, and a canned reply picked by a 32-bit string hash of the
 * prompt, the recurrence `acc = 31 * acc + code` of Java's `String.hashCode`
 * over the prompt's UTF-16 code units.
 */
module WebChat {

  datatype Author = UserAuthor | AssistantAuthor

  datatype ChatMessage = ChatMessage(id: int, author: Author, content: string, timestamp: string)

  const INTRO_COPY := "Hey adventurer! Ready to craft your next quest? Drop me a line and we'll conjure something epic."

  const AUTO_REPLIES: seq<string> := [
    "Noted! I will weave that into the adventure. Want an unexpected ally or a hidden threat next?",
    "Got it. I can foreshadow a twist or drop lore breadcrumbs-what vibe are you leaning toward?",
    "Interesting direction! Should we raise the stakes or give the party a breather scene?",
    "Perfect. I can introduce a rival faction or a mystical artifact to escalate the drama.",
    "Let's make it memorable. Do you want the next beat to be tactical, emotional, or mysterious?"
  ]

  /** `createInitialMessages`, given the formatted time of the date it is handed. */
  function CreateInitialMessages(timestamp: string): (ms: seq<ChatMessage>)
    ensures |ms| == 1
    ensures ms[0].id == 1 && ms[0].author == AssistantAuthor && ms[0].content == INTRO_COPY
    ensures ms[0].timestamp == timestamp
  {
    [ChatMessage(1, AssistantAuthor, INTRO_COPY, timestamp)]
  }

  const TWO_32: int := 0x1_0000_0000
  const TWO_31: int := 0x8000_0000

  /** ECMAScript ToInt32: the value modulo 2^32, read as a signed 32-bit integer. */
  function ToInt32(x: int): (r: int)
    ensures -TWO_31 <= r < TWO_31
    ensures (x - r) % TWO_32 == 0
  {
    var m := x % TWO_32;
    if m >= TWO_31 then m - TWO_32 else m
  }

  /** ToInt32 only sees its argument modulo 2^32. */
  lemma ToInt32Congruent(x: int, y: int)
    requires (x - y) % TWO_32 == 0
    ensures ToInt32(x) == ToInt32(y)
  {
    var k := (x - y) / TWO_32;
    assert x == y + k * TWO_32;
    assert x % TWO_32 == y % TWO_32;
  }

  /** The UTF-16 code units of one character: one unit, or a surrogate pair above U+FFFF. */
  function Units(c: char): (u: seq<int>)
    ensures 1 <= |u| <= 2
    ensures forall i :: 0 <= i < |u| ==> 0 <= u[i] < 0x1_0000
    ensures |u| == 1 <==> c as int < 0x1_0000
  {
    if c as int < 0x1_0000 then [c as int]
    else
      var v := c as int - 0x1_0000;
      [0xD800 + v / 0x400, 0xDC00 + v % 0x400]
  }

  /** The string as JavaScript stores it: what `length` counts and `charCodeAt` reads. */
  function Utf16(s: string): (u: seq<int>)
    ensures |s| <= |u| <= 2 * |s|
  {
    if s == [] then [] else Utf16(s[..|s| - 1]) + Units(s[|s| - 1])
  }

  /** The hash of a sequence of code units, one step per unit. */
  function HashOf(units: seq<int>): int {
    if units == [] then 0 else ToInt32(31 * HashOf(units[..|units| - 1]) + units[|units| - 1])
  }

  /** The plain polynomial the hash reduces: the sum of `code_i * 31^(n-1-i)`. */
  function Poly(units: seq<int>): int {
    if units == [] then 0 else 31 * Poly(units[..|units| - 1]) + units[|units| - 1]
  }

  lemma MultipleMod(k: int)
    ensures (k * TWO_32) % TWO_32 == 0
  {
  }

  /** One step of the polynomial respects congruence modulo 2^32. */
  lemma StepCongruent(p: int, t: int, c: int)
    requires (p - t) % TWO_32 == 0
    ensures ToInt32(31 * p + c) == ToInt32(31 * t + c)
  {
    var k := (p - t) / TWO_32;
    assert p - t == k * TWO_32;
    assert (31 * p + c) - (31 * t + c) == (31 * k) * TWO_32;
    MultipleMod(31 * k);
    ToInt32Congruent(31 * p + c, 31 * t + c);
  }

  /** The hash is the polynomial modulo 2^32, read as a signed 32-bit integer. */
  lemma {:induction false} HashIsPoly(units: seq<int>)
    ensures HashOf(units) == ToInt32(Poly(units))
  {
    if units != [] {
      var front := units[..|units| - 1];
      HashIsPoly(front);
      StepCongruent(Poly(front), ToInt32(Poly(front)), units[|units| - 1]);
    }
  }

  /** The empty prompt hashes to 0, and every hash is a signed 32-bit integer. */
  lemma HashRange(units: seq<int>)
    ensures units == [] ==> HashOf(units) == 0
    ensures -TWO_31 <= HashOf(units) < TWO_31
  {
  }

  /** One step of the loop: `acc = (acc << 5) - acc + code`, then `acc |= 0`. */
  lemma StepAgrees(acc: int, code: int)
    requires -TWO_31 <= acc < TWO_31
    ensures ToInt32(ToInt32(acc * 32) - acc + code) == ToInt32(31 * acc + code)
  {
    var s := ToInt32(acc * 32);
    var k := (acc * 32 - s) / TWO_32;
    assert acc * 32 == s + k * TWO_32;
    ToInt32Congruent(s - acc + code, 31 * acc + code);
  }

  /** `hashPrompt`: fold the code units into a signed 32-bit accumulator. */
  method HashPrompt(text: string) returns (acc: int)
    ensures acc == HashOf(Utf16(text))
    ensures -TWO_31 <= acc < TWO_31
  {
    var units := Utf16(text);
    acc := 0;
    var i := 0;
    while i < |units|
      invariant 0 <= i <= |units|
      invariant acc == HashOf(units[..i])
    {
      assert units[..i + 1][..i] == units[..i];
      StepAgrees(acc, units[i]);
      acc := ToInt32(ToInt32(acc * 32) - acc + units[i]);
      i := i + 1;
    }
    assert units[..|units|] == units;
  }

  function Abs(x: int): nat {
    if x < 0 then -x else x
  }

  /** The reply index of a prompt: `Math.abs(hash) % 5`. */
  function ReplyIndex(prompt: string): (i: nat)
    ensures i < |AUTO_REPLIES|
  {
    Abs(HashOf(Utf16(prompt))) % |AUTO_REPLIES|
  }

  /** `pickAutoReply`: always one of the canned replies, and a function of the prompt alone. */
  function PickAutoReply(prompt: string): (r: string)
    ensures r in AUTO_REPLIES
  {
    AUTO_REPLIES[ReplyIndex(prompt)]
  }
}
