/**
 * The copilot server's `ai_sentiment`: the scraping of a label and a
 * confidence out of the language model's reply for each comment. The
 * model's replies are parameters.
 */
module SentimentScraper {
  import opened Wrappers
  import Text

  /** The three labels a reply can be given. */
  datatype Sentiment = Positive | Negative | Neutral {
    function Name(): string
    {
      match this
      case Positive => "positive"
      case Negative => "negative"
      case Neutral => "neutral"
    }
  }

  /**
   * The label of a lower-cased reply: neutral, replaced by positive if it
   * mentions "positive", replaced in turn by negative if it mentions
   * "negative". So "negative" wins over "positive", which wins over the
   * default.
   */
  function LabelOf(msg: string): (s: Sentiment)
    ensures s == Negative <==> Text.Contains(msg, "negative")
    ensures s == Positive <==> !Text.Contains(msg, "negative") && Text.Contains(msg, "positive")
    ensures s == Neutral <==> !Text.Contains(msg, "negative") && !Text.Contains(msg, "positive")
  {
    var initial := Neutral;
    var afterPositive := if Text.Contains(msg, "positive") then Positive else initial;
    if Text.Contains(msg, "negative") then Negative else afterPositive
  }

  /** The position of the first '.', `|s|` when there is none. */
  function DotIndex(s: string): (i: nat)
    ensures i <= |s|
    ensures i < |s| ==> s[i] == '.'
    ensures forall j :: 0 <= j < i ==> s[j] != '.'
  {
    if s == [] then 0 else if s[0] == '.' then 0 else 1 + DotIndex(s[1..])
  }

  /** `tok.replace(".", "", 1)`. */
  function RemoveFirstDot(s: string): (r: string)
    ensures DotIndex(s) < |s| ==> |r| == |s| - 1
    ensures DotIndex(s) == |s| ==> r == s
  {
    var i := DotIndex(s);
    if i < |s| then s[..i] + s[i + 1..] else s
  }

  /** `tok.replace(".", "", 1).isdigit()`: what is left is a non-empty run of digits. */
  predicate IsNumeric(tok: string)
  {
    var t := RemoveFirstDot(tok);
    t != [] && Text.AllDigits(t)
  }

  /** The value of `places` digits after the decimal point that read as the natural `digits`. */
  function Fraction(digits: nat, places: nat): (f: real)
    ensures f >= 0.0
  {
    digits as real / Text.Pow10(places) as real
  }

  /** How many digits follow the dot of a token, 0 when it has none. */
  function Places(tok: string): (n: nat)
    ensures n < |tok| || tok == []
  {
    var i := DotIndex(tok);
    if i < |tok| then |tok| - i - 1 else 0
  }

  /** `x` with its decimal point moved `places` places to the right. */
  function Shifted(x: real, places: nat): real
  {
    x * Text.Pow10(places) as real
  }

  /**
   * `float(tok)` for a numeric token: integer digits, then the fraction
   * after the dot. With the point moved past the digits that follow the
   * dot, the value is the natural that the digits without the dot denote.
   */
  function TokenValue(tok: string): (v: real)
    requires IsNumeric(tok)
    ensures v >= 0.0
    ensures Shifted(v, Places(tok)) == Text.DigitsValue(RemoveFirstDot(tok)) as real
  {
    var i := DotIndex(tok);
    if i == |tok| then
      assert Places(tok) == 0 && Text.Pow10(0) == 1 && RemoveFirstDot(tok) == tok;
      Text.DigitsValue(tok) as real
    else
      var whole, fraction := tok[..i], tok[i + 1..];
      DecimalShift(tok, whole, fraction);
      Text.DigitsValue(whole) as real + Fraction(Text.DigitsValue(fraction), |fraction|)
  }

  /** The digits around the dot, read together, are the whole part shifted past the fraction's digits. */
  lemma {:induction false} DecimalShift(tok: string, whole: string, fraction: string)
    requires IsNumeric(tok) && DotIndex(tok) < |tok|
    requires whole == tok[..DotIndex(tok)] && fraction == tok[DotIndex(tok) + 1..]
    ensures Text.AllDigits(whole) && Text.AllDigits(fraction) && Places(tok) == |fraction|
    ensures Shifted(Text.DigitsValue(whole) as real + Fraction(Text.DigitsValue(fraction), |fraction|), |fraction|)
      == Text.DigitsValue(RemoveFirstDot(tok)) as real
  {
    assert RemoveFirstDot(tok) == whole + fraction;
    Text.AllDigitsAppend(whole, fraction);
    DecimalValue(whole, fraction);
  }

  lemma {:induction false} DecimalValue(whole: string, fraction: string)
    requires Text.AllDigits(whole) && Text.AllDigits(fraction)
    ensures Text.AllDigits(whole + fraction)
    ensures Shifted(Text.DigitsValue(whole) as real + Fraction(Text.DigitsValue(fraction), |fraction|), |fraction|)
      == Text.DigitsValue(whole + fraction) as real
  {
    Text.DigitsValueAppend(whole, fraction);
    ScaledBack(Text.DigitsValue(whole), Text.DigitsValue(fraction), |fraction|, Text.DigitsValue(whole + fraction));
  }

  lemma ScaledBack(whole: nat, digits: nat, places: nat, joined: nat)
    requires joined == whole * Text.Pow10(places) + digits
    ensures Shifted(whole as real + Fraction(digits, places), places) == joined as real
  {
    var p := Text.Pow10(places);
    ShiftFraction(whole as real, digits as real, p as real);
    assert (whole * p) as real == whole as real * p as real;
  }

  lemma ShiftFraction(whole: real, digits: real, p: real)
    requires p > 0.0
    ensures (whole + digits / p) * p == whole * p + digits
  {
  }

  /** The first element at or after `from` that satisfies `p`, `|xs|` when there is none. */
  function FirstWhere<T>(xs: seq<T>, p: T -> bool, from: nat): (i: nat)
    requires from <= |xs|
    ensures from <= i <= |xs|
    ensures i < |xs| ==> p(xs[i])
    decreases |xs| - from
  {
    if from == |xs| then from else if p(xs[from]) then from else FirstWhere(xs, p, from + 1)
  }

  /** The first numeric token, `|tokens|` when there is none. */
  function FirstNumeric(tokens: seq<string>): (i: nat)
    ensures i <= |tokens|
    ensures i < |tokens| ==> IsNumeric(tokens[i])
  {
    FirstWhere(tokens, IsNumeric, 0)
  }

  /** The value of the first numeric token, 0.5 when there is none. */
  function TokensScore(tokens: seq<string>): real
  {
    var i := FirstNumeric(tokens);
    if i < |tokens| then TokenValue(tokens[i]) else 0.5
  }

  /** The confidence of a lower-cased reply: the score of its whitespace-separated tokens. */
  function ScoreOf(msg: string): (score: real)
    ensures score >= 0.0
    ensures (forall k :: 0 <= k < |Text.Split(msg)| ==> !IsNumeric(Text.Split(msg)[k])) ==> score == 0.5
  {
    var tokens := Text.Split(msg);
    FirstNumericSpec(tokens, |tokens|);
    TokensScore(tokens)
  }

  /** A position from which nothing satisfies `p` up to one that does (or the end) is the first match. */
  lemma {:induction false} FirstWhereAt<T>(xs: seq<T>, p: T -> bool, from: nat, k: nat)
    requires from <= k <= |xs| && (k < |xs| ==> p(xs[k]))
    requires forall j :: from <= j < k ==> !p(xs[j])
    ensures FirstWhere(xs, p, from) == k
    decreases k - from
  {
    if from < k {
      FirstWhereAt(xs, p, from + 1, k);
    }
  }

  /** Nothing before the first match satisfies `p`. */
  lemma {:induction false} FirstWhereFirst<T>(xs: seq<T>, p: T -> bool, from: nat)
    requires from <= |xs|
    ensures forall j :: from <= j < FirstWhere(xs, p, from) ==> !p(xs[j])
    decreases |xs| - from
  {
    if from < |xs| && !p(xs[from]) {
      FirstWhereFirst(xs, p, from + 1);
    }
  }

  /** The first numeric token is numeric and no token before it is; and it is the only position with that property. */
  lemma FirstNumericSpec(tokens: seq<string>, k: nat)
    ensures forall j :: 0 <= j < FirstNumeric(tokens) ==> !IsNumeric(tokens[j])
    ensures k <= |tokens| && (k < |tokens| ==> IsNumeric(tokens[k])) && (forall j :: 0 <= j < k ==> !IsNumeric(tokens[j]))
      ==> FirstNumeric(tokens) == k
  {
    FirstWhereFirst(tokens, IsNumeric, 0);
    if k <= |tokens| && (k < |tokens| ==> IsNumeric(tokens[k])) && (forall j :: 0 <= j < k ==> !IsNumeric(tokens[j])) {
      FirstWhereAt(tokens, IsNumeric, 0, k);
    }
  }

  /** The token loop with its `break` at the first numeric token. */
  method FirstScore(tokens: seq<string>) returns (score: real)
    ensures score == TokensScore(tokens)
  {
    score := 0.5;
    var k := 0;
    while k < |tokens|
      invariant 0 <= k <= |tokens|
      invariant forall j :: 0 <= j < k ==> !IsNumeric(tokens[j])
    {
      if IsNumeric(tokens[k]) {
        ScoreAt(tokens, k);
        score := TokenValue(tokens[k]);
        return;
      }
      k := k + 1;
    }
    ScoreAt(tokens, k);
  }

  /** The score is the value of the first numeric token at `k`, or 0.5 when `k` is the end. */
  lemma ScoreAt(tokens: seq<string>, k: nat)
    requires k <= |tokens| && (k < |tokens| ==> IsNumeric(tokens[k]))
    requires forall j :: 0 <= j < k ==> !IsNumeric(tokens[j])
    ensures k < |tokens| ==> TokensScore(tokens) == TokenValue(tokens[k])
    ensures k == |tokens| ==> TokensScore(tokens) == 0.5
  {
    FirstNumericSpec(tokens, k);
  }

  /** The crude score scrape of one reply. */
  method ScrapeScore(msg: string) returns (score: real)
    ensures score == ScoreOf(msg)
  {
    var tokens := Text.Split(msg);
    score := FirstScore(tokens);
  }

  /** A whole number reads back as itself. */
  lemma WholeNumberToken(n: nat)
    ensures IsNumeric(Text.NatToString(n)) && TokenValue(Text.NatToString(n)) == n as real
  {
    var s := Text.NatToString(n);
    Text.NatToStringRoundTrip(n);
    assert forall i :: 0 <= i < |s| ==> s[i] != '.';
    assert DotIndex(s) == |s|;
  }

  /** A confidence written with a dot reads as the decimal fraction it spells. */
  lemma DecimalToken()
    ensures IsNumeric("0.85") && TokenValue("0.85") == 0.85
  {
    assert DotIndex("0.85") == 1;
    assert RemoveFirstDot("0.85") == "085";
    assert "085"[..2] == "08" && "08"[..1] == "0" && "0"[..0] == "";
    assert Text.AllDigits("0") && Text.AllDigits("08") && Text.AllDigits("085");
    assert Text.DigitsValue("0") == 0 && Text.DigitsValue("08") == 8 && Text.DigitsValue("085") == 85;
    assert Places("0.85") == 2 && Text.Pow10(2) == 100;
  }

  /** One element of `comments`; the `text` key may be missing. */
  datatype Comment = Comment(text: Option<string>)

  datatype Item = Item(text: string, sentiment: Sentiment, score: real)

  /** The item for one comment given the model's reply. */
  function ItemFor(c: Comment, reply: string): Item
  {
    var msg := Text.Lower(reply);
    Item(c.text.GetOr(""), LabelOf(msg), ScoreOf(msg))
  }

  /** An item keeps its comment's text (empty when missing), is negative exactly when the reply mentions "negative", and has a non-negative score. */
  lemma ItemForFields(c: Comment, reply: string)
    ensures ItemFor(c, reply).text == if c.text.Some? then c.text.value else ""
    ensures ItemFor(c, reply).sentiment == Negative <==> Text.Contains(Text.Lower(reply), "negative")
    ensures ItemFor(c, reply).score >= 0.0
  {
  }

  function CountLabel(items: seq<Item>, sentiment: Sentiment): nat
  {
    if items == [] then 0 else CountLabel(items[..|items| - 1], sentiment) + (if items[|items| - 1].sentiment == sentiment then 1 else 0)
  }

  lemma CountLabelSnoc(items: seq<Item>, item: Item, sentiment: Sentiment)
    ensures CountLabel(items + [item], sentiment) == CountLabel(items, sentiment) + (if item.sentiment == sentiment then 1 else 0)
  {
    assert (items + [item])[..|items|] == items;
  }

  function Summary(pos: nat, neg: nat, neu: nat): string
  {
    "Pos " + Text.NatToString(pos) + ", Neg " + Text.NatToString(neg) + ", Neu " + Text.NatToString(neu)
      + ". Focus on the top 2 negative themes."
  }

  /** The body of the comment loop: the reply lower-cased, labelled and scraped for a score. */
  method ClassifyComment(c: Comment, reply: string) returns (item: Item)
    ensures item == ItemFor(c, reply)
  {
    var text := c.text.GetOr("");
    var msg := Text.Lower(reply);
    var sentiment := Neutral;
    if Text.Contains(msg, "positive") {
      sentiment := Positive;
    }
    if Text.Contains(msg, "negative") {
      sentiment := Negative;
    }
    var score := ScrapeScore(msg);
    item := Item(text, sentiment, score);
  }

  /** The items of `ai_sentiment`: one per comment, in order, from the reply at the same position. */
  function Items(comments: seq<Comment>, replies: seq<string>): seq<Item>
    requires |replies| == |comments|
  {
    seq(|comments|, i requires 0 <= i < |comments| => ItemFor(comments[i], replies[i]))
  }

  /** One item per comment, the one for that comment and the reply at its position. */
  lemma ItemsAt(comments: seq<Comment>, replies: seq<string>)
    requires |replies| == |comments|
    ensures |Items(comments, replies)| == |comments|
    ensures forall i :: 0 <= i < |comments| ==> Items(comments, replies)[i] == ItemFor(comments[i], replies[i])
  {
  }

  lemma ItemsSnoc(comments: seq<Comment>, replies: seq<string>, i: nat)
    requires i < |comments| == |replies|
    ensures Items(comments[..i + 1], replies[..i + 1]) == Items(comments[..i], replies[..i]) + [ItemFor(comments[i], replies[i])]
  {
    ItemsAt(comments[..i + 1], replies[..i + 1]);
    ItemsAt(comments[..i], replies[..i]);
    var a := Items(comments[..i + 1], replies[..i + 1]);
    var b := Items(comments[..i], replies[..i]) + [ItemFor(comments[i], replies[i])];
    assert |a| == |b|;
    forall j | 0 <= j <= i
      ensures a[j] == b[j]
    {
      assert comments[..i + 1][j] == comments[j] && replies[..i + 1][j] == replies[j];
      if j < i {
        assert comments[..i][j] == comments[j] && replies[..i][j] == replies[j];
      }
    }
  }

  /** Every item carries exactly one of the three labels. */
  lemma {:induction false} CountLabelsTotal(items: seq<Item>)
    ensures CountLabel(items, Positive) + CountLabel(items, Negative) + CountLabel(items, Neutral) == |items|
  {
    if items != [] {
      CountLabelsTotal(items[..|items| - 1]);
    }
  }

  /**
   * `ai_sentiment` after the model calls: one item per comment in order,
   * and a summary of the three counters, which between them count every
   * comment once.
   */
  method AiSentiment(comments: seq<Comment>, replies: seq<string>) returns (items: seq<Item>, summary: string)
    requires |replies| == |comments|
    ensures items == Items(comments, replies)
    ensures |items| == |comments|
    ensures summary == Summary(CountLabel(items, Positive), CountLabel(items, Negative), CountLabel(items, Neutral))
    ensures CountLabel(items, Positive) + CountLabel(items, Negative) + CountLabel(items, Neutral) == |comments|
  {
    items := [];
    var pos, neg, neu := 0, 0, 0;
    var i := 0;
    while i < |comments|
      invariant 0 <= i <= |comments|
      invariant items == Items(comments[..i], replies[..i])
      invariant pos == CountLabel(items, Positive) && neg == CountLabel(items, Negative) && neu == CountLabel(items, Neutral)
    {
      var item := ClassifyComment(comments[i], replies[i]);
      ItemsSnoc(comments, replies, i);
      CountLabelSnoc(items, item, Positive);
      CountLabelSnoc(items, item, Negative);
      CountLabelSnoc(items, item, Neutral);
      items := items + [item];
      pos := pos + (if item.sentiment == Positive then 1 else 0);
      neg := neg + (if item.sentiment == Negative then 1 else 0);
      neu := neu + (if item.sentiment == Neutral then 1 else 0);
      i := i + 1;
    }
    assert comments[..i] == comments && replies[..i] == replies;
    CountLabelsTotal(items);
    summary := Summary(pos, neg, neu);
  }
}
