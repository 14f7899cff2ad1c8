/**
 * RequestUrlStore: the bounded in-memory queue of request URLs with a backup file in
 * the cache directory. The backup file is modelled as its text, absent or present.
 */
module RequestStore {
  import opened Wrappers

  // ---------------------------------------------------------------------------
  // Capacity-bounded appending

  /** The list after `add(url)`: the oldest entry goes first when the list is at capacity. */
  function Appended(list: seq<string>, maximumRequests: int, url: string): seq<string>
    requires maximumRequests >= 1
  {
    (if |list| >= maximumRequests then list[1..] else list) + [url]
  }

  /** The list after adding every url of `urls`, in order. */
  function AppendedAll(list: seq<string>, maximumRequests: int, urls: seq<string>): seq<string>
    requires maximumRequests >= 1
  {
    if urls == [] then list
    else Appended(AppendedAll(list, maximumRequests, urls[..|urls| - 1]), maximumRequests, urls[|urls| - 1])
  }

  function Min(a: int, b: int): int { if a <= b then a else b }

  /** The last `min(|s|, n)` elements of `s`, in order. */
  function Newest(s: seq<string>, n: nat): (r: seq<string>)
    ensures |r| == Min(|s|, n)
  {
    s[|s| - Min(|s|, n)..]
  }

  /**
   * One `add`: the url becomes last; a list at or over capacity loses exactly its entry at
   * index 0, a shorter one nothing. A list within capacity stays within it, and an
   * over-full one (possible after a load) keeps its length.
   */
  lemma AddEffect(list: seq<string>, maximumRequests: int, url: string)
    requires maximumRequests >= 1
    ensures var r := Appended(list, maximumRequests, url);
      && r[|r| - 1] == url
      && (|list| < maximumRequests ==> r[..|r| - 1] == list)
      && (|list| >= maximumRequests ==> r[..|r| - 1] == list[1..])
      && (|list| <= maximumRequests ==> |r| <= maximumRequests)
      && (|list| > maximumRequests ==> |r| == |list|)
  {
  }

  /** Adding one url to the newest entries gives the newest entries of the longer sequence. */
  lemma NewestSnoc(s: seq<string>, n: nat, url: string)
    requires n >= 1
    ensures Appended(Newest(s, n), n, url) == Newest(s + [url], n)
  {
    var t := s + [url];
    if |s| >= n {
      assert Newest(s, n)[1..] == s[|s| - n + 1..];
      assert t[|t| - n..] == s[|s| - n + 1..] + [url];
    } else {
      assert t[|t| - Min(|t|, n)..] == t;
    }
  }

  /**
   * Starting from a list within capacity, any sequence of adds leaves exactly the newest
   * `maximumRequests` entries of the list followed by the added urls, in order.
   */
  lemma {:induction false} AddsKeepNewest(list: seq<string>, maximumRequests: int, urls: seq<string>)
    requires maximumRequests >= 1 && |list| <= maximumRequests
    ensures AppendedAll(list, maximumRequests, urls) == Newest(list + urls, maximumRequests)
  {
    if urls == [] {
      assert list + urls == list;
    } else {
      var front := urls[..|urls| - 1];
      AddsKeepNewest(list, maximumRequests, front);
      NewestSnoc(list + front, maximumRequests, urls[|urls| - 1]);
      assert list + front + [urls[|urls| - 1]] == list + urls;
    }
  }

  /** From an empty store, after adding `urls` the store holds the last `min(|urls|, maximumRequests)` of them. */
  lemma AddsFromEmpty(maximumRequests: int, urls: seq<string>)
    requires maximumRequests >= 1
    ensures AppendedAll([], maximumRequests, urls) == urls[|urls| - Min(|urls|, maximumRequests)..]
  {
    AddsKeepNewest([], maximumRequests, urls);
    assert [] + urls == urls;
  }

  // ---------------------------------------------------------------------------
  // The backup file as text

  predicate IsLineBreak(c: char) { c == '\n' || c == '\r' }

  /** A string that `readLine` returns whole: it holds no line terminator. */
  predicate IsLine(s: string) { forall i :: 0 <= i < |s| ==> !IsLineBreak(s[i]) }

  /** The length of the first line of `t`: the index of its first line terminator, or |t|. */
  function LineEnd(t: string): (j: nat)
    ensures j <= |t| && IsLine(t[..j])
    ensures j < |t| ==> IsLineBreak(t[j])
  {
    if t == [] || IsLineBreak(t[0]) then 0
    else
      var j := 1 + LineEnd(t[1..]);
      assert t[..j] == [t[0]] + t[1..][..j - 1];
      j
  }

  /**
   * `BufferedReader.readLine`: None at the end of the text; otherwise the next line and the
   * text after its terminator ("\n", "\r" or "\r\n"; the last line may have none).
   */
  function ReadLine(t: string): (r: Option<(string, string)>)
    ensures r.None? <==> t == []
    ensures r.Some? ==> |r.value.1| < |t| && IsLine(r.value.0)
    ensures r.Some? ==> r.value.0 == t[..LineEnd(t)]
    ensures r.Some? ==>
      var (line, rest) := r.value;
      || (t == line && rest == [])
      || t == line + "\n" + rest
      || t == line + "\r\n" + rest
      || (t == line + "\r" + rest && (rest == [] || rest[0] != '\n'))
  {
    if t == [] then None
    else
      var j := LineEnd(t);
      if j == |t| then Some((t, []))
      else if t[j] == '\r' && j + 1 < |t| && t[j + 1] == '\n' then Some((t[..j], t[j + 2..]))
      else Some((t[..j], t[j + 1..]))
  }

  /** Every line `readLine` returns from `t`, in order. */
  function Lines(t: string): seq<string>
    decreases |t|
  {
    match ReadLine(t)
    case None => []
    case Some((line, rest)) => [line] + Lines(rest)
  }

  /** The text `println` writes for the entries: each entry followed by "\n". */
  function Joined(entries: seq<string>): string
  {
    if entries == [] then [] else entries[0] + "\n" + Joined(entries[1..])
  }

  lemma {:induction false} JoinedSnoc(entries: seq<string>, last: string)
    ensures Joined(entries + [last]) == Joined(entries) + last + "\n"
  {
    if entries != [] {
      assert (entries + [last])[1..] == entries[1..] + [last];
      JoinedSnoc(entries[1..], last);
    } else {
      assert [last][1..] == [];
    }
  }

  /** The first line of a text starting with a line and "\n" is that line. */
  lemma ReadLineOfLine(line: string, rest: string)
    requires IsLine(line)
    ensures ReadLine(line + "\n" + rest) == Some((line, rest))
  {
    var t := line + "\n" + rest;
    assert t[..|line|] == line && t[|line|] == '\n';
    var j := LineEnd(t);
    assert j == |line|;
    assert t[..j] == line;
    assert t[j + 1..] == rest;
  }

  /** Reading back the text written for entries without line terminators yields the entries. */
  lemma {:induction false} LinesOfJoined(entries: seq<string>)
    requires forall i :: 0 <= i < |entries| ==> IsLine(entries[i])
    ensures Lines(Joined(entries)) == entries
  {
    if entries != [] {
      ReadLineOfLine(entries[0], Joined(entries[1..]));
      LinesOfJoined(entries[1..]);
    }
  }

  /** The entries the backup file adds when loaded: none when the file is absent. */
  function BackupLines(file: Option<string>): seq<string>
  {
    match file
    case None => []
    case Some(text) => Lines(text)
  }

  // ---------------------------------------------------------------------------
  // The store

  class RequestUrlStore {
    /** The queued request URLs, oldest first. */
    var requestList: seq<string>
    const maximumRequests: int
    /** The text of the backup file "wt-tracking-requests", None when no such file exists. */
    var requestStoreFile: Option<string>

    ghost predicate Valid()
      reads this
    {
      maximumRequests >= 1
    }

    /** The bound add keeps; loading from the backup file can break it. */
    predicate WithinCapacity()
      reads this
    {
      |requestList| <= maximumRequests
    }

    constructor (maximumRequests: int, backup: Option<string>)
      requires maximumRequests >= 1
      ensures Valid() && WithinCapacity()
      ensures this.maximumRequests == maximumRequests && requestList == [] && requestStoreFile == backup
    {
      this.maximumRequests := maximumRequests;
      requestList := [];
      requestStoreFile := backup;
    }

    /** The public constructor: it fails (IllegalArgumentException) when the capacity is below 1. */
    static method Create(maximumRequests: int, backup: Option<string>) returns (r: Option<RequestUrlStore>)
      ensures r.None? <==> maximumRequests < 1
      ensures r.Some? ==> fresh(r.value) && r.value.Valid() && r.value.maximumRequests == maximumRequests
      ensures r.Some? ==> r.value.requestList == [] && r.value.requestStoreFile == backup
    {
      if maximumRequests < 1 {
        return None;
      }
      var store := new RequestUrlStore(maximumRequests, backup);
      return Some(store);
    }

    method Add(requestUrl: string)
      requires Valid()
      modifies this`requestList
      ensures requestList == Appended(old(requestList), maximumRequests, requestUrl)
      ensures old(WithinCapacity()) ==> WithinCapacity()
    {
      if |requestList| >= maximumRequests {
        requestList := requestList[1..];
      }
      requestList := requestList + [requestUrl];
    }

    /** `get(index)`; None where ArrayList throws IndexOutOfBoundsException. */
    function Get(index: int): (r: Option<string>)
      reads this
      ensures r.Some? <==> 0 <= index < |requestList|
      ensures r.Some? ==> r.value == requestList[index]
    {
      if 0 <= index < |requestList| then Some(requestList[index]) else None
    }

    /** `remove(index)`; false, and nothing changes, where ArrayList throws IndexOutOfBoundsException. */
    method Remove(index: int) returns (ok: bool)
      modifies this`requestList
      ensures ok <==> 0 <= index < |old(requestList)|
      ensures ok ==> requestList == old(requestList)[..index] + old(requestList)[index + 1..]
      ensures !ok ==> requestList == old(requestList)
      ensures old(WithinCapacity()) ==> WithinCapacity()
    {
      ok := 0 <= index < |requestList|;
      if ok {
        requestList := requestList[..index] + requestList[index + 1..];
      }
    }

    function Size(): (n: nat)
      reads this
      ensures n == |requestList|
    {
      |requestList|
    }

    method Clear()
      requires Valid()
      modifies this`requestList
      ensures requestList == [] && WithinCapacity()
    {
      requestList := [];
    }

    /** Appends the backup file's lines after the current entries; it evicts nothing. */
    method LoadRequestsFromFile()
      modifies this`requestList
      ensures requestList == old(requestList) + BackupLines(requestStoreFile)
    {
      if requestStoreFile.None? {
        return;
      }
      var rest := requestStoreFile.value;
      while true
        invariant old(requestList) + Lines(requestStoreFile.value) == requestList + Lines(rest)
        decreases |rest|
      {
        var next := ReadLine(rest);
        if next.None? {
          break;
        }
        var (line, after) := next.value;
        assert Lines(rest) == [line] + Lines(after);
        assert requestList + Lines(rest) == (requestList + [line]) + Lines(after);
        requestList := requestList + [line];
        rest := after;
      }
    }

    /** Overwrites the backup file with every entry, one per line, in list order. */
    method SaveRequestsToFile()
      modifies this`requestStoreFile
      ensures requestStoreFile == Some(Joined(requestList))
    {
      var text := "";
      for i := 0 to |requestList|
        invariant text == Joined(requestList[..i])
      {
        JoinedSnoc(requestList[..i], requestList[i]);
        assert requestList[..i + 1] == requestList[..i] + [requestList[i]];
        text := text + requestList[i] + "\n";
      }
      assert requestList[..|requestList|] == requestList;
      requestStoreFile := Some(text);
    }

    method DeleteRequestsFile()
      modifies this`requestStoreFile
      ensures requestStoreFile == None
    {
      requestStoreFile := None;
    }
  }

  /**
   * Saving a store, restoring into a fresh empty store that finds the file, then deleting
   * the file: the fresh store holds the same entries and no backup file remains.
   */
  method BackupRoundTrip(store: RequestUrlStore) returns (restored: RequestUrlStore)
    requires store.Valid()
    requires forall i :: 0 <= i < |store.requestList| ==> IsLine(store.requestList[i])
    modifies store
    ensures store.requestList == old(store.requestList)
    ensures fresh(restored) && restored.requestList == store.requestList
    ensures restored.requestStoreFile == None
  {
    store.SaveRequestsToFile();
    restored := new RequestUrlStore(store.maximumRequests, store.requestStoreFile);
    restored.LoadRequestsFromFile();
    LinesOfJoined(store.requestList);
    restored.DeleteRequestsFile();
  }
}
