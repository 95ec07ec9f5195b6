/**
 * `Utils.addDataToMapFromJsonString`: merges the entries of a JSON object,
 * given as text, into a caller's map. The JSON parse itself is a parameter.
 */
module Utils {

  import opened Common
  import opened Errors
  import Mediator

  /** A `HashMap<String, String>` that callers pass in to be filled in place. */
  class StringMap {
    var entries: map<string, string>

    constructor (entries: map<string, string>)
      ensures this.entries == entries
    {
      this.entries := entries;
    }

    /** `put`: one key is set, every other entry stays. */
    method Put(key: string, value: string)
      modifies this
      ensures entries == old(entries)[key := value]
    {
      entries := entries[key := value];
    }
  }

  /** `replace("'", "")`: every single quote removed, everything else kept in order. */
  function RemoveQuotes(s: string): (r: string)
    ensures |r| <= |s|
    ensures forall i :: 0 <= i < |r| ==> r[i] != '\''
  {
    if s == [] then []
    else if s[0] == '\'' then RemoveQuotes(s[1..])
    else [s[0]] + RemoveQuotes(s[1..])
  }

  /** Text without quotes is left exactly as it is. */
  lemma {:induction false} RemoveQuotesKeepsQuoteFreeText(s: string)
    requires forall i :: 0 <= i < |s| ==> s[i] != '\''
    ensures RemoveQuotes(s) == s
  {
    if s != [] {
      RemoveQuotesKeepsQuoteFreeText(s[1..]);
    }
  }

  /** Removing quotes twice is the same as once. */
  lemma RemoveQuotesIdempotent(s: string)
    ensures RemoveQuotes(RemoveQuotes(s)) == RemoveQuotes(s)
  {
    RemoveQuotesKeepsQuoteFreeText(RemoveQuotes(s));
  }

  /** Only quotes are dropped: every other character survives, and the count of each is kept. */
  lemma {:induction false} RemoveQuotesKeepsOtherCharacters(s: string)
    ensures multiset(RemoveQuotes(s)) == multiset(s)[('\'') := 0]
  {
    if s != [] {
      RemoveQuotesKeepsOtherCharacters(s[1..]);
      assert s == [s[0]] + s[1..];
    }
  }

  /**
   * The loop of `addDataToMapFromJsonString` as a value: the parsed entries
   * are visited in order, and each one with non-empty value text is put.
   */
  function Merged(target: map<string, string>, parsed: seq<(string, string)>): (m: map<string, string>)
    ensures target.Keys <= m.Keys
    ensures m.Keys <= target.Keys + set i | 0 <= i < |parsed| :: parsed[i].0
    decreases |parsed|
  {
    if parsed == [] then target
    else
      var last := parsed[|parsed| - 1];
      var before := Merged(target, parsed[..|parsed| - 1]);
      if last.1 != "" then before[last.0 := last.1] else before
  }

  /** A key ends up in the map exactly when it was there before or some parsed entry with non-empty value names it. */
  lemma {:induction false} MergedKeys(target: map<string, string>, parsed: seq<(string, string)>, k: string)
    ensures k in Merged(target, parsed) <==> k in target || exists i :: 0 <= i < |parsed| && parsed[i].0 == k && parsed[i].1 != ""
  {
    if parsed != [] {
      var init := parsed[..|parsed| - 1];
      MergedKeys(target, init, k);
      if exists i :: 0 <= i < |init| && init[i].0 == k && init[i].1 != "" {
        var i :| 0 <= i < |init| && init[i].0 == k && init[i].1 != "";
        assert parsed[i] == init[i];
      }
      if exists i :: 0 <= i < |parsed| && parsed[i].0 == k && parsed[i].1 != "" {
        var i :| 0 <= i < |parsed| && parsed[i].0 == k && parsed[i].1 != "";
        if i < |init| {
          assert init[i] == parsed[i];
        }
      }
    }
  }

  /** Entries already in the map are never removed; the only values that change are those a parsed key overwrites. */
  lemma {:induction false} MergedOnlyOverwrites(target: map<string, string>, parsed: seq<(string, string)>, k: string)
    requires k in target
    requires forall i :: 0 <= i < |parsed| ==> parsed[i].0 != k || parsed[i].1 == ""
    ensures k in Merged(target, parsed) && Merged(target, parsed)[k] == target[k]
  {
    if parsed != [] {
      var init := parsed[..|parsed| - 1];
      assert forall i :: 0 <= i < |init| ==> init[i] == parsed[i];
      MergedOnlyOverwrites(target, init, k);
    }
  }

  /** The value under a key is the value text of the last parsed entry for it that is not empty. */
  lemma MergedLastWins(target: map<string, string>, parsed: seq<(string, string)>, j: int)
    requires 0 <= j < |parsed| && parsed[j].1 != ""
    requires forall i :: j < i < |parsed| ==> parsed[i].0 != parsed[j].0 || parsed[i].1 == ""
    ensures parsed[j].0 in Merged(target, parsed) && Merged(target, parsed)[parsed[j].0] == parsed[j].1
  {
    var m := Merged(target, parsed[..j + 1]);
    assert parsed[..j + 1][..j] == parsed[..j];
    assert m == Merged(target, parsed[..j])[parsed[j].0 := parsed[j].1];
    MergedSplit(target, parsed, j + 1);
    MergedOnlyOverwrites(m, parsed[j + 1..], parsed[j].0);
  }

  /** Merging a sequence is merging its prefix, then the rest. */
  lemma {:induction false} MergedSplit(target: map<string, string>, parsed: seq<(string, string)>, n: int)
    requires 0 <= n <= |parsed|
    ensures Merged(target, parsed) == Merged(Merged(target, parsed[..n]), parsed[n..])
    decreases |parsed|
  {
    if n < |parsed| {
      var init := parsed[..|parsed| - 1];
      MergedSplit(target, init, n);
      assert init[..n] == parsed[..n];
      assert init[n..] == parsed[n..][..|parsed[n..]| - 1];
    } else {
      assert parsed[..n] == parsed;
    }
  }

  /** A parsed entry: the key's text and the value's text, or `None` for a JSON null. */
  type Entry = (string, Option<string>)

  /** How many entries come before the first null value: the loop dereferences each value, so it stops there. */
  function NonNullPrefix(entries: seq<Entry>): (k: nat)
    ensures k <= |entries|
    ensures forall i :: 0 <= i < k ==> entries[i].1.Some?
    ensures k < |entries| ==> entries[k].1.None?
  {
    if entries == [] || entries[0].1.None? then 0 else 1 + NonNullPrefix(entries[1..])
  }

  /** Entries without null values as key and value texts. */
  function Texts(entries: seq<Entry>): (r: seq<(string, string)>)
    requires forall i :: 0 <= i < |entries| ==> entries[i].1.Some?
    ensures |r| == |entries|
    ensures forall i :: 0 <= i < |r| ==> entries[i] == (r[i].0, Some(r[i].1))
  {
    seq(|entries|, i requires 0 <= i < |entries| && entries[i].1.Some? => (entries[i].0, entries[i].1.value))
  }

  /**
   * `addDataToMapFromJsonString(jsonString, metadataMap)`: empty or null text
   * leaves the map alone; otherwise the quotes are removed and the text parsed.
   * `parse` is Gson's `fromJson(…, Map.class)`: it may throw, return a null map
   * (blank text), or return entries whose values are null. A throwing parse
   * leaves the map as it was and the exception propagates; a null map throws
   * NullPointerException before any put. Otherwise each entry with non-empty
   * value text is put, in order, until the first null value, whose
   * dereference throws NullPointerException with the earlier puts kept.
   */
  method AddDataToMapFromJsonString(jsonString: Option<string>, target: StringMap,
                                    parse: string -> Mediator.Reply<Option<seq<Entry>>>)
    returns (thrown: Option<Thrown>)
    modifies target
    ensures IsEmpty(jsonString) ==> thrown.None? && target.entries == old(target.entries)
    ensures IsNotEmpty(jsonString) && parse(RemoveQuotes(jsonString.value)).Threw? ==>
              thrown == Some(parse(RemoveQuotes(jsonString.value)).thrown) && target.entries == old(target.entries)
    ensures IsNotEmpty(jsonString) && parse(RemoveQuotes(jsonString.value)) == Mediator.Returned(None) ==>
              thrown == Some(NullPointer) && target.entries == old(target.entries)
    ensures IsNotEmpty(jsonString) && parse(RemoveQuotes(jsonString.value)).Returned? && parse(RemoveQuotes(jsonString.value)).value.Some? ==>
              var entries := parse(RemoveQuotes(jsonString.value)).value.value;
              var k := NonNullPrefix(entries);
              target.entries == Merged(old(target.entries), Texts(entries[..k])) &&
              (if k == |entries| then thrown.None? else thrown == Some(NullPointer))
  {
    if IsEmpty(jsonString) {
      return None;
    }
    var reply := parse(RemoveQuotes(jsonString.value));
    if reply.Threw? {
      return Some(reply.thrown);
    }
    if reply.value.None? {
      return Some(NullPointer);
    }
    var entries := reply.value.value;
    var i := 0;
    while i < |entries|
      invariant 0 <= i <= NonNullPrefix(entries)
      invariant target.entries == Merged(old(target.entries), Texts(entries[..i]))
    {
      if entries[i].1.None? {
        return Some(NullPointer);
      }
      assert Texts(entries[..i + 1])[..i] == Texts(entries[..i]);
      if entries[i].1.value != "" {
        target.Put(entries[i].0, entries[i].1.value);
      }
      i := i + 1;
    }
    assert entries[..i] == entries;
    thrown := None;
  }
}
