/**
 * The chat-mode menu of bot/bot.py: `get_chat_mode_menu` builds one page of
 * mode buttons plus a pagination row, and `show_chat_modes_callback_handle`
 * reads the page number back out of a pagination button's callback data.
 * `config.chat_modes` (an ordered dictionary) is the sequence `modes` and
 * `config.n_chat_modes_per_page` is `perPage`.
 */
module BotMenu {
  import opened Wrappers
  import opened BotText

  /** One entry of `config.chat_modes`: its key and its `name`. */
  datatype ChatMode = ChatMode(key: string, name: string)

  /** An inline keyboard button: its text and its `callback_data`. */
  datatype Button = Button(caption: string, callbackData: string)

  type Keyboard = seq<seq<Button>>

  const PreviousLabel: string := "«"
  const NextLabel: string := "»"
  const SetModePrefix: string := "set_chat_mode|"
  const ShowPagePrefix: string := "show_chat_modes|"

  function ModeButton(mode: ChatMode): Button
  {
    Button(mode.name, SetModePrefix + mode.key)
  }

  function PageButton(caption: string, page: nat): Button
  {
    Button(caption, ShowPagePrefix + DecimalString(page))
  }

  /** Python's `s[lo:hi]` for non-negative bounds: both are clipped to the length. */
  function PySlice<T>(s: seq<T>, lo: nat, hi: nat): (r: seq<T>)
    ensures |r| <= |s| && (|r| == 0 || hi - lo == |r| || hi > |s|)
    ensures lo < hi && lo < |s| ==> r == s[lo..Min(hi, |s|)]
    ensures lo >= hi || lo >= |s| ==> r == []
  {
    var l, h := Min(lo, |s|), Min(hi, |s|);
    if l < h then s[l..h] else []
  }

  /** The modes shown on page `page`: `chat_mode_keys[page * n : (page + 1) * n]`. */
  function PageModes(modes: seq<ChatMode>, perPage: nat, page: nat): (r: seq<ChatMode>)
    ensures |r| == if page * perPage < |modes| then Min(perPage, |modes| - page * perPage) else 0
    ensures forall i :: 0 <= i < |r| ==> page * perPage + i < |modes| && r[i] == modes[page * perPage + i]
  {
    assert (page + 1) * perPage == page * perPage + perPage;
    PySlice(modes, page * perPage, (page + 1) * perPage)
  }

  /**
   * The pagination row, present only when the modes do not fit on one page:
   * the first page gets only "»", the last only "«", and every other page both.
   */
  function PaginationRow(count: nat, perPage: nat, page: nat): (row: Option<seq<Button>>)
    ensures row.Some? <==> count > perPage
    ensures row.Some? && page == 0 ==> row.value == [PageButton(NextLabel, 1)]
    ensures row.Some? && page > 0 && (page + 1) * perPage >= count ==> row.value == [PageButton(PreviousLabel, page - 1)]
    ensures row.Some? && page > 0 && (page + 1) * perPage < count ==>
      row.value == [PageButton(PreviousLabel, page - 1), PageButton(NextLabel, page + 1)]
  {
    if count <= perPage then None
    else
      var isFirstPage := page == 0;
      var isLastPage := (page + 1) * perPage >= count;
      if isFirstPage then Some([PageButton(NextLabel, page + 1)])
      else if isLastPage then Some([PageButton(PreviousLabel, page - 1)])
      else Some([PageButton(PreviousLabel, page - 1), PageButton(NextLabel, page + 1)])
  }

  /**
   * `get_chat_mode_menu(page_index)`: the heading, then one row per mode of the
   * page, in order, then the pagination row when there is one.
   */
  method GetChatModeMenu(modes: seq<ChatMode>, perPage: nat, pageIndex: nat) returns (text: string, keyboard: Keyboard)
    ensures text == "Select <b>chat mode</b> (" + DecimalString(|modes|) + " modes available):"
    ensures var shown := PageModes(modes, perPage, pageIndex);
      && |keyboard| == |shown| + (if |modes| > perPage then 1 else 0)
      && forall i :: 0 <= i < |shown| ==> keyboard[i] == [ModeButton(shown[i])]
    ensures PaginationRow(|modes|, perPage, pageIndex).Some? ==>
      keyboard[|keyboard| - 1] == PaginationRow(|modes|, perPage, pageIndex).value
  {
    text := "Select <b>chat mode</b> (" + DecimalString(|modes|) + " modes available):";
    var pageModes := PageModes(modes, perPage, pageIndex);
    keyboard := [];
    for i := 0 to |pageModes|
      invariant |keyboard| == i
      invariant forall j :: 0 <= j < i ==> keyboard[j] == [ModeButton(pageModes[j])]
    {
      keyboard := keyboard + [[Button(pageModes[i].name, SetModePrefix + pageModes[i].key)]];
    }
    var pagination := PaginationRow(|modes|, perPage, pageIndex);
    if pagination.Some? {
      keyboard := keyboard + [pagination.value];
    }
  }

  function FirstBar(s: string): (i: nat)
    requires '|' in s
    ensures i < |s| && s[i] == '|'
    ensures forall k :: 0 <= k < i ==> s[k] != '|'
  {
    if s[0] == '|' then 0
    else
      assert '|' in s[1..] by {
        var k :| 0 <= k < |s| && s[k] == '|';
        assert s[1..][k - 1] == '|';
      }
      1 + FirstBar(s[1..])
  }

  /** `"|".join(fields)`. */
  function JoinBar(fields: seq<string>): string
    requires 0 < |fields|
  {
    if |fields| == 1 then fields[0] else fields[0] + "|" + JoinBar(fields[1..])
  }

  /** Python's `s.split("|")`: the fields hold no bar and, joined with bars, give `s` back. */
  function SplitBar(s: string): (fields: seq<string>)
    ensures 0 < |fields|
    ensures forall k :: 0 <= k < |fields| ==> '|' !in fields[k]
    ensures JoinBar(fields) == s
    decreases |s|
  {
    if '|' !in s then [s]
    else
      var i := FirstBar(s);
      var rest := SplitBar(s[i + 1..]);
      assert '|' !in s[..i] by {
        forall k | 0 <= k < i ensures s[..i][k] != '|' { }
      }
      assert ([s[..i]] + rest)[1..] == rest;
      assert s[..i] + "|" + s[i + 1..] == s;
      [s[..i]] + rest
  }

  /**
   * `show_chat_modes_callback_handle`'s reading of the callback data:
   * `int(query.data.split("|")[1])`, kept only when not negative. `None` is
   * the handler stopping, by an exception (no second field, not a number) or by
   * returning early on a negative page.
   */
  function RequestedPage(data: string): (page: Option<nat>)
    ensures page.Some? ==> 2 <= |SplitBar(data)| && ParseInt(SplitBar(data)[1]) == Some(page.value as int)
    ensures 2 <= |SplitBar(data)| && ParseInt(SplitBar(data)[1]).Some? && 0 <= ParseInt(SplitBar(data)[1]).value ==>
      page.Some?
  {
    var fields := SplitBar(data);
    if |fields| < 2 then None
    else match ParseInt(fields[1])
      case Some(p) => if p < 0 then None else Some(p)
      case None => None
  }

  /** The callback data of a page button is read back as that page. */
  lemma ShowPageRoundTrip(page: nat)
    ensures RequestedPage(ShowPagePrefix + DecimalString(page)) == Some(page)
  {
    var digits := DecimalString(page);
    var data := ShowPagePrefix + digits;
    assert '|' !in digits by {
      forall k | 0 <= k < |digits| ensures digits[k] != '|' {
        assert IsDigit(digits[k]);
      }
    }
    assert data[15] == '|';
    assert forall k :: 0 <= k < 15 ==> data[k] != '|' by {
      assert data[..15] == "show_chat_modes";
      assert forall k :: 0 <= k < 15 ==> data[k] == data[..15][k];
    }
    assert FirstBar(data) == 15 by {
      FirstBarUnique(data, 15);
    }
    assert data[16..] == digits;
    assert SplitBar(data) == [data[..15], digits];
    DecimalRoundTrip(page);
  }

  lemma FirstBarUnique(s: string, i: nat)
    requires i < |s| && s[i] == '|'
    requires forall k :: 0 <= k < i ==> s[k] != '|'
    ensures FirstBar(s) == i
  {
  }

  /**
   * The pagination buttons point at pages that exist: on a page that starts
   * inside the list of modes, every pagination button's callback data parses
   * to a page number that is not negative and whose page also starts inside
   * the list. With a positive page size that page lists at least one mode;
   * with a page size of 0 every page, as bot.py slices it, is empty.
   */
  lemma {:induction false} PaginationLandsOnModes(modes: seq<ChatMode>, perPage: nat, page: nat)
    requires page * perPage < |modes|
    requires PaginationRow(|modes|, perPage, page).Some?
    ensures forall b :: b in PaginationRow(|modes|, perPage, page).value ==>
      && RequestedPage(b.callbackData).Some?
      && RequestedPage(b.callbackData).value * perPage < |modes|
      && (0 < perPage <==> 0 < |PageModes(modes, perPage, RequestedPage(b.callbackData).value)|)
  {
    var row := PaginationRow(|modes|, perPage, page).value;
    forall b | b in row
      ensures RequestedPage(b.callbackData).Some? && RequestedPage(b.callbackData).value * perPage < |modes|
      ensures 0 < perPage <==> 0 < |PageModes(modes, perPage, RequestedPage(b.callbackData).value)|
    {
      var target := ButtonTarget(modes, perPage, page, b);
      ShowPageRoundTrip(target);
    }
  }

  /** The page a pagination button points at, which starts inside the list of modes. */
  lemma ButtonTarget(modes: seq<ChatMode>, perPage: nat, page: nat, b: Button) returns (target: nat)
    requires page * perPage < |modes|
    requires PaginationRow(|modes|, perPage, page).Some? && b in PaginationRow(|modes|, perPage, page).value
    ensures b.callbackData == ShowPagePrefix + DecimalString(target) && target * perPage < |modes|
  {
    if page == 0 {
      target := 1;
    } else if b == PageButton(PreviousLabel, page - 1) {
      target := page - 1;
      assert page * perPage == target * perPage + perPage;
    } else {
      target := page + 1;
      assert page * perPage + perPage == (page + 1) * perPage;
    }
  }
}
