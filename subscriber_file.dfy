/**
 * The JSON file `data/telegram-subscribers.json` that the webhook and the
 * notify route keep their subscriber chat ids in. It is written by
 * `JSON.stringify(ids, null, 2)`: "[]" for no ids, otherwise one id per line
 * indented by two spaces, separated by commas.
 */
module SubscriberFile {
  import opened Wrappers
  import opened Text

  predicate Distinct(ids: seq<int>) {
    forall i, j :: 0 <= i < j < |ids| ==> ids[i] != ids[j]
  }

  /** The lines after "[": each id indented by two spaces, all but the last followed by a comma. */
  function Items(ids: seq<int>): (s: string)
    requires |ids| > 0
    decreases |ids|, 1
  {
    "  " + Line(ids)
  }

  /** The first id of `Items` without its indentation, and the lines after it. */
  function Line(ids: seq<int>): (s: string)
    requires |ids| > 0
    decreases |ids|, 0
  {
    IntToString(ids[0]) + (if |ids| == 1 then "" else ",\n" + Items(ids[1..]))
  }

  /** `JSON.stringify(ids, null, 2)`. */
  function Encode(ids: seq<int>): (s: string)
    ensures |s| >= 2 && s[0] == '[' && s[|s| - 1] == ']'
  {
    if ids == [] then "[]" else "[\n" + Items(ids) + "\n]"
  }

  /** Where the first comma of `s` stands, or `|s|` when there is none. */
  function CommaAt(s: string): (n: nat)
    ensures n <= |s| && (n < |s| ==> s[n] == ',')
    ensures forall k :: 0 <= k < n ==> s[k] != ','
  {
    if s == [] || s[0] == ',' then 0 else 1 + CommaAt(s[1..])
  }

  /** The items of an array in the layout `Items` writes; None for anything else. */
  function DecodeItems(s: string): (r: Option<seq<int>>)
    decreases |s|
  {
    if !StartsWith(s, "  ") then None
    else
      var u := s[2..];
      var n := CommaAt(u);
      match ParseInteger(u[..n])
      case None => None
      case Some(v) =>
        if n == |u| then Some([v])
        else if n + 1 < |u| && u[n + 1] == '\n' then
          match DecodeItems(u[n + 2..])
          case None => None
          case Some(rest) => Some([v] + rest)
        else None
  }

  /**
   * `JSON.parse` of the file text, read only in the layout `Encode` writes
   * (the one every write of the file produces). None for every other text:
   * that covers the texts on which `JSON.parse` throws, but also valid JSON
   * in another layout (`[1,2]`) or of another type (`5`), which the model
   * does not parse.
   */
  function Decode(s: string): (r: Option<seq<int>>)
  {
    if s == "[]" then Some([])
    else if |s| >= 4 && s[..2] == "[\n" && s[|s| - 2..] == "\n]" then DecodeItems(s[2..|s| - 2])
    else None
  }

  /** No comma in the decimal form of an integer. */
  lemma IntToStringHasNoComma(i: int)
    ensures forall k :: 0 <= k < |IntToString(i)| ==> IntToString(i)[k] != ','
  {
    if i < 0 {
      var s := IntToString(i);
      assert forall k :: 1 <= k < |s| ==> s[k] == NatToString(-i)[k - 1];
    }
  }

  lemma {:induction false} CommaAtJoin(a: string, b: string)
    requires forall k :: 0 <= k < |a| ==> a[k] != ','
    requires b == [] || b[0] == ','
    ensures CommaAt(a + b) == |a|
  {
    if a != [] {
      assert (a + b)[1..] == a[1..] + b;
      CommaAtJoin(a[1..], b);
    } else {
      assert a + b == b;
    }
  }

  lemma DropIndent(x: string)
    ensures StartsWith("  " + x, "  ") && ("  " + x)[2..] == x
  {
  }

  /** The last item: an indented integer with no comma after it. */
  lemma DecodeLastItem(t: string, v: int)
    requires ParseInteger(t) == Some(v) && forall k :: 0 <= k < |t| ==> t[k] != ','
    ensures DecodeItems("  " + (t + "")) == Some([v])
  {
    assert t + "" == t;
    DropIndent(t);
    CommaAtJoin(t, []);
    assert t + [] == t;
    assert t[..|t|] == t;
  }

  lemma ItemThenRest(t: string, rest: string)
    requires forall k :: 0 <= k < |t| ==> t[k] != ','
    ensures var u := t + (",\n" + rest);
      CommaAt(u) == |t| && u[..|t|] == t && |t| + 1 < |u| && u[|t| + 1] == '\n' && u[|t| + 2..] == rest
  {
    CommaAtJoin(t, ",\n" + rest);
  }

  /** An item followed by ",\n" and further items. */
  lemma DecodeNextItem(t: string, v: int, rest: string)
    requires ParseInteger(t) == Some(v) && forall k :: 0 <= k < |t| ==> t[k] != ','
    ensures DecodeItems("  " + (t + (",\n" + rest))) ==
      match DecodeItems(rest) case None => None case Some(r) => Some([v] + r)
  {
    DropIndent(t + (",\n" + rest));
    ItemThenRest(t, rest);
  }

  lemma {:induction false} DecodeItemsOfItems(ids: seq<int>)
    requires |ids| > 0
    ensures DecodeItems(Items(ids)) == Some(ids)
    decreases |ids|
  {
    var t := IntToString(ids[0]);
    IntToStringHasNoComma(ids[0]);
    IntToStringRoundTrip(ids[0]);
    if |ids| == 1 {
      DecodeLastItem(t, ids[0]);
      assert ids == [ids[0]];
    } else {
      DecodeNextItem(t, ids[0], Items(ids[1..]));
      DecodeItemsOfItems(ids[1..]);
      assert ids == [ids[0]] + ids[1..];
    }
  }

  lemma Bracketed(x: string)
    ensures var s := "[\n" + x + "\n]";
      && s != "[]" && |s| >= 4 && s[..2] == "[\n" && s[|s| - 2..] == "\n]" && s[2..|s| - 2] == x
  {
    var s := "[\n" + x + "\n]";
    assert s[1] == '\n';
  }

  /** Reading back what was written gives the same ids in the same order. */
  lemma DecodeEncode(ids: seq<int>)
    ensures Decode(Encode(ids)) == Some(ids)
  {
    if ids != [] {
      Bracketed(Items(ids));
      DecodeItemsOfItems(ids);
    }
  }

  /** `new Set(ids)`: the ids with later repetitions dropped, in first-occurrence order. */
  function Dedup(ids: seq<int>): (r: seq<int>)
    ensures |r| <= |ids|
  {
    if ids == [] then []
    else
      var r := Dedup(ids[..|ids| - 1]);
      if ids[|ids| - 1] in r then r else r + [ids[|ids| - 1]]
  }

  lemma {:induction false} DedupMembers(ids: seq<int>)
    ensures forall x :: x in Dedup(ids) <==> x in ids
    ensures Distinct(Dedup(ids))
  {
    if ids != [] {
      var init, last := ids[..|ids| - 1], ids[|ids| - 1];
      DedupMembers(init);
      assert ids == init + [last];
    }
  }

  /** A set built from ids without repetitions lists them as they are. */
  lemma {:induction false} DedupOfDistinct(ids: seq<int>)
    requires Distinct(ids)
    ensures Dedup(ids) == ids
  {
    if ids != [] {
      var init, last := ids[..|ids| - 1], ids[|ids| - 1];
      assert Distinct(init);
      DedupOfDistinct(init);
      forall j | 0 <= j < |init| ensures init[j] != last {
        assert init[j] == ids[j];
      }
      assert ids == init + [last];
    }
  }

  /** The file as the routes hold it: absent, or present with its text. */
  class JsonFile {
    var content: Option<string>

    constructor (content: Option<string>)
      ensures this.content == content
    {
      this.content := content;
    }

    /** The parsed array: [] when the file is missing or is not in `Encode`'s layout. */
    function Ids(): (r: seq<int>)
      reads this
      ensures content.None? ==> r == []
    {
      match content
      case None => []
      case Some(t) => Decode(t).GetOr([])
    }

    /** `writeFileSync(JSON.stringify(ids, null, 2))`; a failed write is caught and changes nothing. */
    method Save(ids: seq<int>, writeOk: bool)
      modifies this
      ensures content == if writeOk then Some(Encode(ids)) else old(content)
    {
      if writeOk {
        content := Some(Encode(ids));
      }
    }
  }

  /** What was saved is what is read back. */
  lemma SavedIdsReadBack(ids: seq<int>, f: JsonFile)
    requires f.content == Some(Encode(ids))
    ensures f.Ids() == ids
  {
    DecodeEncode(ids);
  }
}
