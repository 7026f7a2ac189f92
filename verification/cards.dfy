/**
 * The card list of the poster: an ordered sequence of flat records that map a
 * field name ("offer", "name", "price", ...) to its text.  Both the store of
 * js/state.js and the legacy editor of script.js keep such a list and reshape
 * it in the same ways; the functions here say what each reshaping produces.
 */
module Cards {

  /** One card (or the `defaults` record): field name to field text. */
  type Card = map<string, string>

  /** `n` copies of `d`. */
  function Copies(d: Card, n: nat): (r: seq<Card>)
    ensures |r| == n
    ensures forall i :: 0 <= i < n ==> r[i] == d
  {
    seq(n, _ => d)
  }

  /**
   * The card list after it is grown with copies of `defaults`, or truncated,
   * until its length is `target`.
   */
  function Resized(cards: seq<Card>, target: nat, defaults: Card): (r: seq<Card>)
    ensures |r| == target
    ensures forall i :: 0 <= i < |cards| && i < target ==> r[i] == cards[i]
    ensures forall i :: |cards| <= i < target ==> r[i] == defaults
  {
    if target <= |cards| then cards[..target] else cards + Copies(defaults, target - |cards|)
  }

  /** Growing by one step appends one copy of the defaults. */
  lemma ResizedStep(cards: seq<Card>, target: nat, defaults: Card)
    requires |cards| <= target
    ensures Resized(cards, target + 1, defaults) == Resized(cards, target, defaults) + [defaults]
  {
    var r, r' := Resized(cards, target, defaults), Resized(cards, target + 1, defaults);
    assert |r'| == |r + [defaults]|;
    forall i | 0 <= i < |r'| ensures r'[i] == (r + [defaults])[i] {
      if i < |cards| {
      } else if i < target {
      } else {
        assert i == target;
      }
    }
  }

  /** A list that already has the target length is left exactly as it was. */
  lemma ResizedIdentity(cards: seq<Card>, defaults: Card)
    ensures Resized(cards, |cards|, defaults) == cards
  {
  }

  /** Shrinking keeps a prefix, in order: the result is an initial segment of the input. */
  lemma ResizedShrinkIsPrefix(cards: seq<Card>, target: nat, defaults: Card)
    requires target <= |cards|
    ensures Resized(cards, target, defaults) <= cards
  {
  }

  /**
   * Every card with field `key` set to `value`: `cards.map(card => ({...card, [key]: value}))`.
   */
  function WithField(cards: seq<Card>, key: string, value: string): (r: seq<Card>)
    ensures |r| == |cards|
    ensures forall i :: 0 <= i < |r| ==> key in r[i] && r[i][key] == value
    ensures forall i, f :: 0 <= i < |r| && f != key ==> (f in r[i] <==> f in cards[i])
    ensures forall i, f :: 0 <= i < |r| && f != key && f in cards[i] ==> r[i][f] == cards[i][f]
  {
    seq(|cards|, i requires 0 <= i < |cards| => cards[i][key := value])
  }

  /** The card list with one field of the card at `index` set: `cards[index][key] = value`. */
  function WithCardField(cards: seq<Card>, index: nat, key: string, value: string): (r: seq<Card>)
    requires index < |cards|
    ensures |r| == |cards|
    ensures forall i :: 0 <= i < |r| && i != index ==> r[i] == cards[i]
    ensures key in r[index] && r[index][key] == value
    ensures forall f :: f != key ==> (f in r[index] <==> f in cards[index])
    ensures forall f :: f != key && f in cards[index] ==> r[index][f] == cards[index][f]
  {
    cards[index := cards[index][key := value]]
  }

  /** Every card replaced by a fresh copy of `defaults`: `cards.map(() => ({...defaults}))`. */
  function Overwritten(cards: seq<Card>, defaults: Card): (r: seq<Card>)
    ensures |r| == |cards|
    ensures forall i :: 0 <= i < |r| ==> r[i] == defaults
  {
    Copies(defaults, |cards|)
  }
}
