/** The bounded conversion-history store (`StorageService`): a list of
    past conversions kept newest first under one key of the key-value
    area, capped at fifty entries. */
module Storage {
  import opened Wrappers
  import opened JsText
  import opened Preferences

  /** One past conversion. `timestamp` is milliseconds since the epoch. */
  datatype ConversionHistoryItem = ConversionHistoryItem(
    id: string,
    timestamp: nat,
    imageDataUrl: string,
    teiXml: string)

  type History = seq<ConversionHistoryItem>

  /** The key-value area as the history store sees it. */
  type HistoryStore = Store<History>

  const HISTORY_KEY := "conversion_history"

  /** The cap that `slice(0, 50)` imposes. */
  const MAX_HISTORY: nat := 50

  function Min(a: int, b: int): int
  {
    if a <= b then a else b
  }

  /** What `value ? JSON.parse(value) : []` makes of a successful read: an
      absent value, an empty string and a string that does not parse back
      to a list all give the empty list. */
  function Parse(v: Option<Value<History>>): (h: History)
  {
    match v
    case Some(Encoded(items)) => items
    case _ => []
  }

  /** The list a fault-free `getHistory` returns in the state `entries`. */
  function StoredHistory(entries: map<string, Value<History>>): History
  {
    Parse(Lookup(entries, HISTORY_KEY))
  }

  /** The record `saveConversion` builds from two clock readings: the
      first becomes the id (as a decimal string), the second the
      timestamp. */
  function NewItem(idClock: nat, tsClock: nat, imageDataUrl: string, teiXml: string): (item: ConversionHistoryItem)
    ensures IsDigits(item.id) && ParseDecimal(item.id) == idClock
    ensures |item.id| > 1 ==> item.id[0] != '0'
    ensures item.timestamp == tsClock
    ensures item.imageDataUrl == imageDataUrl && item.teiXml == teiXml
  {
    DecimalRoundTrip(idClock);
    ConversionHistoryItem(DecimalString(idClock), tsClock, imageDataUrl, teiXml)
  }

  /** The list `saveConversion` writes: `item` in front of `history`, cut
      to the cap, so that the oldest entries fall off the tail. */
  function Saved(history: History, item: ConversionHistoryItem): (r: History)
    ensures |r| == Min(|history| + 1, MAX_HISTORY)
    ensures |r| <= MAX_HISTORY
    ensures r[0] == item
    ensures r[1..] == history[..Min(|history|, MAX_HISTORY - 1)]
  {
    var front := [item] + history;
    assert front[1..] == history;
    front[..Min(|front|, MAX_HISTORY)]
  }

  /** The first fifty entries of `s`. */
  function Capped(s: History): History
  {
    s[..Min(|s|, MAX_HISTORY)]
  }

  /** Cutting before prepending does not change what survives the cut. */
  lemma CappedAbsorbs(a: History, b: History)
    ensures Capped(a + Capped(b)) == Capped(a + b)
  {
  }

  /** `s` back to front. */
  function Reversed(s: seq<ConversionHistoryItem>): (r: seq<ConversionHistoryItem>)
    ensures |r| == |s|
    ensures forall k | 0 <= k < |s| :: r[k] == s[|s| - 1 - k]
  {
    if s == [] then [] else Reversed(s[1..]) + [s[0]]
  }

  /** The list after saving `items` one after another, in order. */
  function SaveAll(history: History, items: seq<ConversionHistoryItem>): History
    decreases |items|
  {
    if items == [] then history
    else SaveAll(Saved(history, items[0]), items[1..])
  }

  /** Saving items one after another is prepending them all, latest
      first, and keeping the first fifty: the oldest entries are the ones
      evicted. */
  lemma {:induction false} SaveAllClosedForm(history: History, items: seq<ConversionHistoryItem>)
    requires |history| <= MAX_HISTORY
    ensures SaveAll(history, items) == Capped(Reversed(items) + history)
    decreases |items|
  {
    if items == [] {
      assert Reversed(items) + history == history;
    } else {
      var rest := items[1..];
      SaveAllClosedForm(Saved(history, items[0]), rest);
      assert Saved(history, items[0]) == Capped([items[0]] + history);
      CappedAbsorbs(Reversed(rest), [items[0]] + history);
      assert Reversed(items) == Reversed(rest) + [items[0]];
      assert Reversed(rest) + ([items[0]] + history) == Reversed(items) + history;
    }
  }

  /** Saving N items in sequence from an empty history leaves min(N, 50)
      entries, the one saved last at the front. */
  lemma SaveAllFromEmpty(items: seq<ConversionHistoryItem>)
    ensures |SaveAll([], items)| == Min(|items|, MAX_HISTORY)
    ensures forall k | 0 <= k < Min(|items|, MAX_HISTORY) :: SaveAll([], items)[k] == items[|items| - 1 - k]
  {
    SaveAllClosedForm([], items);
    assert Reversed(items) + [] == Reversed(items);
  }

  /** The list `deleteHistoryItem(id)` writes: `history.filter(item =>
      item.id !== id)`. */
  function Without(history: History, id: string): (r: History)
    ensures |r| <= |history|
    ensures forall x :: x in r <==> x in history && x.id != id
  {
    if history == [] then []
    else (if history[0].id != id then [history[0]] else []) + Without(history[1..], id)
  }

  /** Filtering works element by element: it distributes over
      concatenation, so what survives keeps its original order. */
  lemma {:induction false} WithoutConcat(a: History, b: History, id: string)
    ensures Without(a + b, id) == Without(a, id) + Without(b, id)
  {
    if a != [] {
      assert (a + b)[0] == a[0];
      assert (a + b)[1..] == a[1..] + b;
      WithoutConcat(a[1..], b, id);
    } else {
      assert a + b == b;
    }
  }

  /** Deleting an id that no entry carries leaves the list as it was. */
  lemma {:induction false} WithoutAbsent(history: History, id: string)
    requires forall k | 0 <= k < |history| :: history[k].id != id
    ensures Without(history, id) == history
  {
    if history != [] {
      WithoutAbsent(history[1..], id);
    }
  }

  /** Deleting the same id twice changes nothing the second time. */
  lemma WithoutIdempotent(history: History, id: string)
    ensures Without(Without(history, id), id) == Without(history, id)
  {
    var once := Without(history, id);
    forall k | 0 <= k < |once| ensures once[k].id != id {
      assert once[k] in once;
    }
    WithoutAbsent(once, id);
  }

  /** Entries are ordered newest first. */
  predicate NewestFirst(history: History)
  {
    forall i, j | 0 <= i < j < |history| :: history[i].timestamp >= history[j].timestamp
  }

  /** Saving an item no older than every stored entry keeps the list
      newest first. */
  lemma SavedNewestFirst(history: History, item: ConversionHistoryItem)
    requires NewestFirst(history)
    requires forall k | 0 <= k < |history| :: history[k].timestamp <= item.timestamp
    ensures NewestFirst(Saved(history, item))
  {
  }

  /** Deleting keeps the list newest first. */
  lemma {:induction false} WithoutNewestFirst(history: History, id: string)
    requires NewestFirst(history)
    ensures NewestFirst(Without(history, id))
  {
    if history != [] {
      var tail := history[1..];
      assert NewestFirst(tail) by {
        forall i, j | 0 <= i < j < |tail| ensures tail[i].timestamp >= tail[j].timestamp {
          assert tail[i] == history[i + 1] && tail[j] == history[j + 1];
        }
      }
      WithoutNewestFirst(tail, id);
      var rest := Without(tail, id);
      forall x | x in rest ensures history[0].timestamp >= x.timestamp {
        var k :| 0 <= k < |tail| && tail[k] == x;
        assert x == history[k + 1];
      }
    }
  }

  /** The stored history respects the cap. */
  predicate WithinCap(entries: map<string, Value<History>>)
  {
    |StoredHistory(entries)| <= MAX_HISTORY
  }

  class StorageService {

    /** `getHistory`: never fails; an absent, empty or unparsable value and
        a failed read all give the empty list. */
    static method GetHistory(prefs: HistoryStore, readFault: Option<Fault>) returns (history: History)
      ensures readFault.Some? ==> history == []
      ensures HISTORY_KEY !in prefs.entries ==> history == []
      ensures HISTORY_KEY in prefs.entries && prefs.entries[HISTORY_KEY].Text? ==> history == []
      ensures (readFault.None? && HISTORY_KEY in prefs.entries && prefs.entries[HISTORY_KEY].Encoded?) ==>
                history == prefs.entries[HISTORY_KEY].data
    {
      var read := prefs.Get(HISTORY_KEY, readFault);
      match read
      case Err(_) =>
        history := [];
      case Ok(value) =>
        history := match value
          case Some(Encoded(items)) => items
          case _ => [];
    }

    /** `saveConversion(imageDataUrl, teiXml)`: reads the history (a
        failed read counts as empty), puts the new item in front, keeps
        the first fifty and writes the list back; a failed write is
        re-thrown and leaves the store as it was. */
    static method SaveConversion(prefs: HistoryStore, imageDataUrl: string, teiXml: string,
                                 idClock: nat, tsClock: nat,
                                 readFault: Option<Fault>, writeFault: Option<Fault>)
      returns (r: Outcome<Fault>)
      modifies prefs
      ensures var before := if readFault.Some? then [] else StoredHistory(old(prefs.entries));
        if writeFault.Some? then
          r == Fail(writeFault.value) && prefs.entries == old(prefs.entries)
        else
          r == Pass &&
          prefs.entries == old(prefs.entries)[HISTORY_KEY := Encoded(Saved(before, NewItem(idClock, tsClock, imageDataUrl, teiXml)))]
      ensures WithinCap(old(prefs.entries)) ==> WithinCap(prefs.entries)
      ensures r.Pass? ==> WithinCap(prefs.entries)
    {
      var history := GetHistory(prefs, readFault);
      ghost var before := history;
      var newItem := ConversionHistoryItem(DecimalString(idClock), tsClock, imageDataUrl, teiXml);
      history := [newItem] + history;
      var trimmed := history[..Min(|history|, MAX_HISTORY)];
      assert trimmed == Saved(before, newItem);
      r := prefs.Set(HISTORY_KEY, Encoded(trimmed), writeFault);
    }

    /** `deleteHistoryItem(id)`: writes back the entries whose id differs
        from `id`, in their order; a failed write is re-thrown. */
    static method DeleteHistoryItem(prefs: HistoryStore, id: string,
                                    readFault: Option<Fault>, writeFault: Option<Fault>)
      returns (r: Outcome<Fault>)
      modifies prefs
      ensures var before := if readFault.Some? then [] else StoredHistory(old(prefs.entries));
        if writeFault.Some? then
          r == Fail(writeFault.value) && prefs.entries == old(prefs.entries)
        else
          r == Pass && prefs.entries == old(prefs.entries)[HISTORY_KEY := Encoded(Without(before, id))]
      ensures WithinCap(old(prefs.entries)) ==> WithinCap(prefs.entries)
    {
      var history := GetHistory(prefs, readFault);
      var updated := Without(history, id);
      r := prefs.Set(HISTORY_KEY, Encoded(updated), writeFault);
    }

    /** `clearHistory`: removes the history key; a failed removal is
        re-thrown. */
    static method ClearHistory(prefs: HistoryStore, fault: Option<Fault>) returns (r: Outcome<Fault>)
      modifies prefs
      ensures fault.Some? ==> r == Fail(fault.value) && prefs.entries == old(prefs.entries)
      ensures fault.None? ==> r == Pass && prefs.entries == old(prefs.entries) - {HISTORY_KEY}
      ensures fault.None? ==> StoredHistory(prefs.entries) == []
      ensures WithinCap(old(prefs.entries)) ==> WithinCap(prefs.entries)
    {
      r := prefs.Remove(HISTORY_KEY, fault);
    }
  }
}
