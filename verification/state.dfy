/**
 * The undo/redo-capable application store of js/state.js.
 *
 * The module-level `state` record becomes the three fields `config`,
 * `defaults` and `cards`; the history stacks `past` and `future` are fields
 * that the methods reassign.  `notify()` hands the state to every subscriber;
 * here each notification appends the state handed out to `published`, so the
 * contracts say exactly when subscribers are told and what they see.
 */
module State {
  import opened Wrappers
  import opened Cards
  import opened History

  class Store {
    var config: Config
    var defaults: Card
    var cards: seq<Card>
    var past: seq<AppState>
    var future: seq<AppState>
    /** The states handed to the subscribers, one entry per `notify()`. */
    var published: seq<AppState>

    /** `cloneState()`: a value copy of the live state. */
    function Snapshot(): (s: AppState)
      reads this
    {
      AppState(config, defaults, cards)
    }

    /** The live state with its history. */
    function Current(): (t: Timeline)
      reads this
    {
      Timeline(Snapshot(), past, future)
    }

    /** The history bound holds. */
    predicate Valid()
      reads this
    {
      Bounded(Current())
    }

    /** The state the module starts with: one card layout, the stock defaults, no cards, no history. */
    constructor ()
      ensures Valid()
      ensures config == Config("vector", "A4", "portrait", 1, None)
      ensures defaults == map["offer" := "OFERTA", "name" := "BANANA PRATA", "category" := "",
                              "detail" := "GRAÚDA", "price" := "88,88", "unit" := ""]
      ensures cards == [] && past == [] && future == [] && published == []
    {
      config := Config("vector", "A4", "portrait", 1, None);
      defaults := map["offer" := "OFERTA", "name" := "BANANA PRATA", "category" := "",
                      "detail" := "GRAÚDA", "price" := "88,88", "unit" := ""];
      cards := [];
      past := [];
      future := [];
      published := [];
    }

    /** `notify()`: every subscriber is handed the current state. */
    method Notify()
      modifies this`published
      ensures published == old(published) + [Snapshot()]
    {
      published := published + [Snapshot()];
    }

    /** `pushHistory()`: snapshot onto `past` (evicting the oldest past the cap), then clear `future`. */
    method PushHistory()
      requires Valid()
      modifies this`past, this`future
      ensures past == Pushed(old(past), Snapshot()) && future == []
      ensures Valid()
    {
      past := past + [Snapshot()];
      if |past| > MaxHistory {
        past := past[1..];
      }
      future := [];
    }

    /** `undo()`: with an empty `past` nothing changes and nobody is notified. */
    method Undo()
      requires Valid()
      modifies this
      ensures Valid()
      ensures Current() == History.Undo(old(Current()))
      ensures published == if old(past) == [] then old(published) else old(published) + [Snapshot()]
    {
      if |past| == 0 {
        return;
      }
      future := future + [Snapshot()];
      var previous := past[|past| - 1];
      past := past[..|past| - 1];
      config, defaults, cards := previous.config, previous.defaults, previous.cards;
      Notify();
    }

    /** `redo()`: with an empty `future` nothing changes and nobody is notified. */
    method Redo()
      requires Valid()
      modifies this
      ensures Valid()
      ensures Current() == History.Redo(old(Current()))
      ensures published == if old(future) == [] then old(published) else old(published) + [Snapshot()]
    {
      if |future| == 0 {
        return;
      }
      past := past + [Snapshot()];
      var next := future[|future| - 1];
      future := future[..|future| - 1];
      config, defaults, cards := next.config, next.defaults, next.cards;
      Notify();
    }

    /** `updateConfig(key, value)`: only the named configuration field changes. */
    method UpdateConfig(change: ConfigChange)
      requires Valid()
      modifies this
      ensures Valid()
      ensures Current() == Commit(old(Current()), old(Snapshot()).(config := Applied(old(config), change)))
      ensures published == old(published) + [Snapshot()]
    {
      PushHistory();
      config := Applied(config, change);
      Notify();
    }

    /** `updateDefault(key, value)`: the default and that field of every card take the value. */
    method UpdateDefault(key: string, value: string)
      requires Valid()
      modifies this
      ensures Valid()
      ensures Current() == Commit(old(Current()), AppState(old(config), old(defaults)[key := value],
                                                             WithField(old(cards), key, value)))
      ensures published == old(published) + [Snapshot()]
    {
      PushHistory();
      defaults := defaults[key := value];
      cards := WithField(cards, key, value);
      Notify();
    }

    /** `updateCard(index, key, value)`: with no card at `index`, nothing happens at all. */
    method UpdateCard(index: int, key: string, value: string)
      requires Valid()
      modifies this
      ensures Valid()
      ensures !(0 <= index < |old(cards)|) ==> Current() == old(Current()) && published == old(published)
      ensures 0 <= index < |old(cards)| ==>
                Current() == Commit(old(Current()), old(Snapshot()).(cards := WithCardField(old(cards), index, key, value)))
                && published == old(published) + [Snapshot()]
    {
      if 0 <= index < |cards| {
        PushHistory();
        cards := WithCardField(cards, index, key, value);
        Notify();
      }
    }

    /** `setCards(newCards)`: the card list is replaced wholesale (its length is not checked against the layout). */
    method SetCards(newCards: seq<Card>)
      requires Valid()
      modifies this
      ensures Valid()
      ensures Current() == Commit(old(Current()), old(Snapshot()).(cards := newCards))
      ensures published == old(published) + [Snapshot()]
    {
      PushHistory();
      cards := newCards;
      Notify();
    }

    /**
     * `resizeCardsArray()`: grow the card list one copy of the defaults at a
     * time, or truncate it, until it has `config.layout` cards.
     */
    method ResizeCardsArray()
      requires Valid()
      modifies this
      ensures Valid()
      ensures Current() == Commit(old(Current()), LayoutApplied(old(Snapshot())))
      ensures |cards| == config.layout
      ensures published == old(published) + [Snapshot()]
    {
      PushHistory();
      ghost var before := cards;
      var targetLength := config.layout;
      if |cards| < targetLength {
        var i := |cards|;
        while i < targetLength
          invariant |before| <= i <= targetLength
          invariant cards == Resized(before, i, defaults)
          invariant past == old(Pushed(past, Snapshot())) && future == []
          invariant config == old(config) && defaults == old(defaults) && published == old(published)
        {
          ResizedStep(before, i, defaults);
          cards := cards + [defaults];
          i := i + 1;
        }
      } else if |cards| > targetLength {
        cards := cards[..targetLength];
      }
      Notify();
    }
  }

  /**
   * The editing scenario of the poster: one card priced "88,88" is repriced,
   * the change is undone and then redone.
   */
  method RepriceUndoRedo()
  {
    var s := new Store();
    s.ResizeCardsArray();
    assert s.cards == [s.defaults] && s.cards[0]["price"] == "88,88";
    s.UpdateCard(0, "price", "99,99");
    assert s.cards[0]["price"] == "99,99";
    s.Undo();
    assert s.cards[0]["price"] == "88,88";
    s.Redo();
    assert s.cards[0]["price"] == "99,99";
  }
}
