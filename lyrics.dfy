/** The Lyrics plugin (lyrics/lyrics.py): the numbered menu of search
    results, the check of the member's choice, and the embeds the chosen
    lyrics are shown in. The KSoft.Si search, the wait for the member's
    answer and Red's `pagify` are parameters. */
module Lyrics {
  import opened Wrappers
  import opened Strings

  // ---------------------------------------------------------------------
  // The result menu

  /** One item of the list the search answers: a `LyricResult`, or an
      object of another type. */
  datatype Item =
    | LyricResult(name: string, artist: string, albumYear: seq<string>, lyrics: string)
    | NotLyric

  const Header: string := "Please select the music you wish to get the lyrics by selecting the corresponding number:\n\n"

  /** The year part of a menu line: `(**year**)` when `year` is non-empty
      and, read as a number, after 1970; nothing otherwise. `int(year)`
      raises on text that is not a number (`None`). */
  function YearSuffix(year: string): Option<string> {
    if year == "" then Some("")
    else if !AllDigits(year) then None
    else if DigitsValue(year) > 1970 then Some("(**" + year + "**)")
    else Some("")
  }

  /** A year printed by `str` is shown exactly when it is after 1970. */
  lemma YearShownAfter1970(y: nat)
    ensures YearSuffix(NatToString(y)) == if y > 1970 then Some("(**" + NatToString(y) + "**)") else Some("")
  {
    NatToStringRoundTrip(y);
  }

  /** The year of a result cannot be read: `album_year` is empty (the
      index raises) or its first element is not a number. */
  predicate Broken(item: Item) {
    item.LyricResult? && (item.albumYear == [] || YearSuffix(item.albumYear[0]).None?)
  }

  /** The year part of a result's line; a result whose year cannot be
      read never gets a line. */
  function YearOf(item: Item): string
    requires item.LyricResult?
  {
    if item.albumYear == [] then ""
    else
      var suffix := YearSuffix(item.albumYear[0]);
      if suffix.Some? then suffix.value else ""
  }

  /** The menu line of the `n`-th result. */
  function MenuLine(n: nat, item: Item): string
    requires item.LyricResult?
  {
    "`" + NatToString(n) + "` - " + item.name + " by " + item.artist + " " + YearOf(item) + "\n"
  }

  /** The `LyricResult` items, in order: the others take no number. */
  function Results(items: seq<Item>): (r: seq<Item>)
    ensures |r| <= |items|
    ensures forall x :: x in r ==> x.LyricResult?
    decreases |items|
  {
    if items == [] then []
    else
      var last := items[|items| - 1];
      Results(items[..|items| - 1]) + (if last.LyricResult? then [last] else [])
  }

  /** Where the results sit in the search list: `Results` keeps, in their
      order and each once, exactly the `LyricResult` items, so the menu
      numbers them in the order the search gave them. */
  function ResultIndices(items: seq<Item>): (idx: seq<nat>)
    ensures |idx| == |Results(items)|
    ensures forall k :: 0 <= k < |idx| ==> idx[k] < |items| && items[idx[k]].LyricResult? && Results(items)[k] == items[idx[k]]
    ensures forall j, k :: 0 <= j < k < |idx| ==> idx[j] < idx[k]
    ensures forall i :: 0 <= i < |items| && items[i].LyricResult? ==> i in idx
    decreases |items|
  {
    if items == [] then []
    else
      var prefix := items[..|items| - 1];
      var last := items[|items| - 1];
      assert forall i :: 0 <= i < |prefix| ==> prefix[i] == items[i];
      ResultIndices(prefix) + (if last.LyricResult? then [|items| - 1] else [])
  }

  /** The results are exactly the `LyricResult` items of the list. */
  lemma {:induction false} ResultsAreTheLyricResults(items: seq<Item>)
    ensures forall x :: x in Results(items) <==> x in items && x.LyricResult?
    decreases |items|
  {
    if items != [] {
      var prefix := items[..|items| - 1];
      ResultsAreTheLyricResults(prefix);
      assert items == prefix + [items[|items| - 1]];
    }
  }

  /** One line per result, numbered from 0. */
  function MenuLines(results: seq<Item>): string
    requires forall x :: x in results ==> x.LyricResult?
    decreases |results|
  {
    if results == [] then ""
    else MenuLines(results[..|results| - 1]) + MenuLine(|results| - 1, results[|results| - 1])
  }

  /** `key` is one of "0" .. "n-1": the decimal form `str(k)` of some
      `k < n`, so with no sign and no leading zero. */
  predicate IsKey(key: string, n: nat) {
    key != "" && AllDigits(key) && DigitsValue(key) < n && NatToString(DigitsValue(key)) == key
  }

  /** The keys for `n + 1` results are those for `n` and `str(n)`. */
  lemma NextKey(key: string, n: nat)
    ensures IsKey(key, n + 1) <==> IsKey(key, n) || key == NatToString(n)
  {
    NatToStringRoundTrip(n);
  }

  /** `str(k)` is the key of the `k`-th result. */
  lemma KeyOf(k: nat, n: nat)
    ensures IsKey(NatToString(k), n) <==> k < n
    ensures DigitsValue(NatToString(k)) == k
  {
    NatToStringRoundTrip(k);
  }

  /** Every key of `choices` is "0" .. "n-1". */
  ghost predicate KeysNumbered(choices: map<string, Item>, n: nat) {
    forall key :: key in choices ==> exists k :: 0 <= k < n && key == NatToString(k)
  }

  /** "k" maps to the `k`-th result. */
  ghost predicate ValuesNumbered(choices: map<string, Item>, results: seq<Item>) {
    forall k :: 0 <= k < |results| ==> NatToString(k) in choices && choices[NatToString(k)] == results[k]
  }

  /** Adding `str(n)` keeps the keys within "0" .. "n". */
  lemma KeysStep(choices: map<string, Item>, n: nat, music: Item)
    requires KeysNumbered(choices, n)
    ensures KeysNumbered(choices[NatToString(n) := music], n + 1)
  {
    var choices' := choices[NatToString(n) := music];
    forall key | key in choices'
      ensures exists k :: 0 <= k < n + 1 && key == NatToString(k)
    {
      if key != NatToString(n) {
        var k :| 0 <= k < n && key == NatToString(k);
        assert 0 <= k < n + 1;
      }
    }
  }

  /** Giving the next result the next number leaves the earlier numbers
      as they were, since `str` never prints two numbers alike. */
  lemma ValuesStep(choices: map<string, Item>, results: seq<Item>, music: Item)
    requires ValuesNumbered(choices, results)
    ensures ValuesNumbered(choices[NatToString(|results|) := music], results + [music])
  {
    var n := |results|;
    var choices' := choices[NatToString(n) := music];
    forall k | 0 <= k < n + 1
      ensures NatToString(k) in choices' && choices'[NatToString(k)] == (results + [music])[k]
    {
      if k < n {
        NatToStringInjective(k, n);
      }
    }
  }

  /** The text `_title_choose` returns and its `method` dict. */
  datatype Menu = Menu(message: string, choices: map<string, Item>)

  /** The lines, the dict and the next number after `_title_choose` went
      through `items`, or `Err` once a result's year could not be read. */
  function MenuSpec(items: seq<Item>): Result<(string, map<string, Item>, nat), ()>
    decreases |items|
  {
    if items == [] then Ok(("", map[], 0))
    else
      var prev := MenuSpec(items[..|items| - 1]);
      var music := items[|items| - 1];
      if prev.Err? || !music.LyricResult? then prev
      else if music.albumYear == [] || YearSuffix(music.albumYear[0]).None? then Err(())
      else
        var (lines, choices, n) := prev.value;
        Ok((lines + MenuLine(n, music), choices[NatToString(n) := music], n + 1))
  }

  /** The menu fails exactly when some result's year cannot be read. */
  lemma {:induction false} MenuSpecFails(items: seq<Item>)
    ensures MenuSpec(items).Err? <==> exists i :: 0 <= i < |items| && Broken(items[i])
    decreases |items|
  {
    if items != [] {
      var prefix := items[..|items| - 1];
      MenuSpecFails(prefix);
      assert forall i :: 0 <= i < |prefix| ==> prefix[i] == items[i];
    }
  }

  /** When it does not fail, the menu numbered every result. */
  lemma {:induction false} MenuSpecCount(items: seq<Item>)
    ensures MenuSpec(items).Ok? ==> MenuSpec(items).value.2 == |Results(items)|
    decreases |items|
  {
    if items != [] {
      MenuSpecCount(items[..|items| - 1]);
    }
  }

  /** Appending a result appends its line, numbered by its position. */
  lemma MenuLinesAppend(results: seq<Item>, music: Item)
    requires forall x :: x in results ==> x.LyricResult?
    requires music.LyricResult?
    ensures MenuLines(results + [music]) == MenuLines(results) + MenuLine(|results|, music)
  {
    var extended := results + [music];
    assert extended[..|results|] == results;
    assert extended[|results|] == music;
  }

  /** When it does not fail, the menu has one line per result, the `k`-th
      numbered `k`. */
  lemma {:induction false} MenuSpecLines(items: seq<Item>)
    ensures MenuSpec(items).Ok? ==> MenuSpec(items).value.0 == MenuLines(Results(items))
    decreases |items|
  {
    if items != [] {
      var prefix := items[..|items| - 1];
      var music := items[|items| - 1];
      MenuSpecLines(prefix);
      MenuSpecCount(prefix);
      if MenuSpec(prefix).Ok? && music.LyricResult? && !Broken(music) {
        var results := Results(prefix);
        assert Results(items) == results + [music];
        MenuLinesAppend(results, music);
        assert MenuSpec(items).value.0 == MenuSpec(prefix).value.0 + MenuLine(|results|, music);
      } else if MenuSpec(prefix).Ok? && !music.LyricResult? {
        assert Results(items) == Results(prefix);
        assert MenuSpec(items) == MenuSpec(prefix);
      }
    }
  }

  /** When it does not fail, the menu's dict maps "k" to the `k`-th result
      and has no other key. */
  lemma {:induction false} MenuSpecChoices(items: seq<Item>)
    ensures MenuSpec(items).Ok? ==>
      && KeysNumbered(MenuSpec(items).value.1, |Results(items)|)
      && ValuesNumbered(MenuSpec(items).value.1, Results(items))
    decreases |items|
  {
    if items != [] {
      var prefix := items[..|items| - 1];
      var music := items[|items| - 1];
      MenuSpecChoices(prefix);
      MenuSpecCount(prefix);
      if MenuSpec(prefix).Ok? && music.LyricResult? && !Broken(music) {
        var (_, choices, n) := MenuSpec(prefix).value;
        KeysStep(choices, n, music);
        ValuesStep(choices, Results(prefix), music);
      }
    }
  }

  /** `_title_choose` (lyrics/lyrics.py:117-147): items of another type
      are skipped without taking a number; each result gets the next
      number as its key and one line of the message. A result whose year
      cannot be read raises. */
  method TitleChoose(items: seq<Item>) returns (r: Result<Menu, ()>)
    ensures r.Err? <==> exists i :: 0 <= i < |items| && Broken(items[i])
    ensures r.Ok? ==>
      var results := Results(items);
      && r.value.message == Header + MenuLines(results)
      && KeysNumbered(r.value.choices, |results|) && ValuesNumbered(r.value.choices, results)
  {
    var lines := "";
    var choices: map<string, Item> := map[];
    var n := 0;
    for i := 0 to |items|
      invariant MenuSpec(items[..i]) == Ok((lines, choices, n))
    {
      assert items[..i + 1][..i] == items[..i];
      var music := items[i];
      if !music.LyricResult? {
        continue;
      }
      if music.albumYear == [] || YearSuffix(music.albumYear[0]).None? {
        MenuSpecFails(items[..i + 1]);
        MenuSpecPrefix(items, i + 1);
        return Err(());
      }
      lines := lines + MenuLine(n, music);
      choices := choices[NatToString(n) := music];
      n := n + 1;
    }
    assert items[..|items|] == items;
    MenuSpecFails(items);
    MenuSpecCount(items);
    MenuSpecLines(items);
    MenuSpecChoices(items);
    r := Ok(Menu(Header + lines, choices));
  }

  /** A failure on a prefix is a failure of the whole list. */
  lemma MenuSpecPrefix(items: seq<Item>, k: nat)
    requires k <= |items|
    requires exists i :: 0 <= i < k && Broken(items[..k][i])
    ensures exists i :: 0 <= i < |items| && Broken(items[i])
  {
    var i :| 0 <= i < k && Broken(items[..k][i]);
    assert items[..k][i] == items[i];
  }

  // ---------------------------------------------------------------------
  // The member's choice

  /** `MessagePredicate.less(10, ctx)` on an answer written in plain
      decimal digits: read as a number, it is below ten. Python's `int` also
      takes a sign, surrounding blanks and leading zeros; no such text is a
      menu key, so those answers end as not in the list. */
  predicate BelowTen(content: string) {
    content != "" && AllDigits(content) && DigitsValue(content) < 10
  }

  /** Only the keys of the first ten results pass the predicate the bot
      waits with, so later results can never be chosen. */
  lemma OnlyFirstTenSelectable(k: nat)
    ensures BelowTen(NatToString(k)) <==> k < 10
  {
    NatToStringRoundTrip(k);
  }

  /** What happens to the member's answer. */
  datatype Choice = TimedOut | NotInList | Chosen(music: Item)

  /** The choice check in `lyrics` (lyrics/lyrics.py:88-102); `answer` is
      the first message that passed the predicate, `None` on timeout. */
  function Choose(menu: Menu, answer: Option<string>): Choice {
    if answer.None? then TimedOut
    else if answer.value !in menu.choices then NotInList
    else Chosen(menu.choices[answer.value])
  }

  /** Against the menu `_title_choose` built: an answer is accepted iff it
      is the number of a result, and then that result is the one chosen. */
  lemma ChooseFromMenu(results: seq<Item>, menu: Menu, content: string)
    requires KeysNumbered(menu.choices, |results|) && ValuesNumbered(menu.choices, results)
    ensures Choose(menu, Some(content)).Chosen? <==> IsKey(content, |results|)
    ensures IsKey(content, |results|) ==> Choose(menu, Some(content)) == Chosen(results[DigitsValue(content)])
  {
    if content in menu.choices {
      var k :| 0 <= k < |results| && content == NatToString(k);
      KeyOf(k, |results|);
    }
    if IsKey(content, |results|) {
      assert content == NatToString(DigitsValue(content));
    }
  }

  // ---------------------------------------------------------------------
  // The embeds

  /** `discord.Embed`, with the parts the plugin sets. */
  class Embed {
    var title: string
    var description: Option<string>

    constructor (title: string)
      ensures this.title == title && description.None?
    {
      this.title := title;
      description := None;
    }
  }

  /** The embed building in `lyrics` (lyrics/lyrics.py:103-109): one embed
      object is created, and for each chunk its description is set and the
      same object appended, so every element is that one object, showing
      the last chunk. */
  method BuildEmbeds(music: Item, chunks: seq<string>) returns (embed: Embed, embeds: seq<Embed>)
    requires music.LyricResult?
    ensures fresh(embed) && embed.title == music.name
    ensures |embeds| == |chunks| && forall i :: 0 <= i < |embeds| ==> embeds[i] == embed
    ensures embed.description == if chunks == [] then None else Some(chunks[|chunks| - 1])
  {
    embeds := [];
    embed := new Embed(music.name);
    for i := 0 to |chunks|
      invariant |embeds| == i && forall j :: 0 <= j < i ==> embeds[j] == embed
      invariant embed.title == music.name
      invariant embed.description == if i == 0 then None else Some(chunks[i - 1])
    {
      embed.description := Some(chunks[i]);
      embeds := embeds + [embed];
    }
  }

  /** How the embeds go out. */
  datatype Delivery =
    | SentOne(page: Option<string>)        // `ctx.send(embed=embeds[0])`
    | Paged(pages: seq<Option<string>>)    // a reaction menu over the embeds
    | IndexRaised                          // `embeds[0]` on an empty list

  /** The end of `lyrics` (lyrics/lyrics.py:110-115): several embeds are
      shown as a menu, one is sent, none raises. */
  method Deliver(embeds: seq<Embed>) returns (d: Delivery)
    ensures |embeds| == 0 ==> d == IndexRaised
    ensures |embeds| == 1 ==> d == SentOne(embeds[0].description)
    ensures |embeds| > 1 ==> d.Paged? && |d.pages| == |embeds| && forall i :: 0 <= i < |embeds| ==> d.pages[i] == embeds[i].description
  {
    if |embeds| > 1 {
      var pages := [];
      for i := 0 to |embeds|
        invariant |pages| == i && forall j :: 0 <= j < i ==> pages[j] == embeds[j].description
      {
        pages := pages + [embeds[i].description];
      }
      return Paged(pages);
    }
    if |embeds| == 0 {
      return IndexRaised;
    }
    d := SentOne(embeds[0].description);
  }

  /** What the member sees for lyrics cut by `pagify` into `chunks`:
      nothing but an `IndexError` when there is no chunk, the chunk itself
      when there is one, and otherwise a menu whose every page shows the
      last chunk. */
  function Shown(chunks: seq<string>): Delivery {
    if chunks == [] then IndexRaised
    else if |chunks| == 1 then SentOne(Some(chunks[0]))
    else Paged(seq(|chunks|, _ => Some(chunks[|chunks| - 1])))
  }

  /** The menu shows the lyrics page by page only when all chunks are the
      same text; otherwise some page shows a chunk other than its own. */
  lemma MenuRepeatsLastChunk(chunks: seq<string>)
    requires |chunks| > 1
    ensures Shown(chunks).Paged? && |Shown(chunks).pages| == |chunks|
    ensures (forall i :: 0 <= i < |chunks| ==> Shown(chunks).pages[i] == Some(chunks[i])) <==>
            (forall i :: 0 <= i < |chunks| ==> chunks[i] == chunks[|chunks| - 1])
  {
    var pages := Shown(chunks).pages;
    if forall i :: 0 <= i < |chunks| ==> pages[i] == Some(chunks[i]) {
      forall i | 0 <= i < |chunks| ensures chunks[i] == chunks[|chunks| - 1] {
        assert pages[i] == Some(chunks[i]);
      }
    }
  }

  /** The embeds built for `chunks` and sent (lyrics/lyrics.py:103-115). */
  method ShowLyrics(music: Item, chunks: seq<string>) returns (d: Delivery)
    requires music.LyricResult?
    ensures d == Shown(chunks)
  {
    var embed, embeds := BuildEmbeds(music, chunks);
    d := Deliver(embeds);
  }

  // ---------------------------------------------------------------------
  // The command

  /** What the KSoft.Si search answered. */
  datatype Search = NoResults | ApiError(error: string) | Forbidden | KeyRejected | Found(items: seq<Item>)

  /** What the command sends. */
  datatype Reply =
    | NoKeySet | NoLyrics | UnknownApiError(error: string) | RequestForbidden | WrongKey
    | MenuMessage(text: string) | MenuDeleted | Silence | NotFound | Lyrics(d: Delivery)

  /** The plugin: the client, created once from the shared key and kept. */
  class LyricsCog {
    var client: Option<string>

    constructor ()
      ensures client.None?
    {
      client := None;
    }

    /** `obtain_client` (lyrics/lyrics.py:149-168): the kept client, or a
        new one when the key is set; an empty or missing key raises
        `AttributeError`. */
    method ObtainClient(apiKey: Option<string>) returns (r: Option<string>)
      modifies this
      ensures old(client).Some? ==> r == old(client) && client == old(client)
      ensures old(client).None? && apiKey.Some? && apiKey.value != "" ==> r == apiKey && client == apiKey
      ensures old(client).None? && (apiKey.None? || apiKey.value == "") ==> r.None? && client.None?
    {
      if client.Some? {
        return client;
      }
      if apiKey.Some? && apiKey.value != "" {
        client := apiKey;
        return client;
      }
      r := None;
    }

    /** `lyrics` (lyrics/lyrics.py:57-115) after the title is cleaned;
        `pagify` is the chunking of the chosen lyrics. `answer` may be any
        text: the contract covers every answer, among them the ones
        `MessagePredicate.less(10)` lets through (lyrics/lyrics.py:87-89),
        of which only the keys below ten can select a result
        (OnlyFirstTenSelectable). */
    method LyricsCommand(apiKey: Option<string>, search: Search, answer: Option<string>, pagify: string -> seq<string>)
      returns (replies: seq<Reply>, raised: bool)
      modifies this
      ensures !KeyReady(old(client), apiKey) ==> replies == [NoKeySet] && !raised
      ensures KeyReady(old(client), apiKey) && !search.Found? ==> replies == [SearchFailure(search)] && !raised
      ensures KeyReady(old(client), apiKey) && search.Found? && (exists i :: 0 <= i < |search.items| && Broken(search.items[i])) ==>
        replies == [] && raised
      ensures KeyReady(old(client), apiKey) && search.Found? && (forall i :: 0 <= i < |search.items| ==> !Broken(search.items[i])) ==>
        var results := Results(search.items);
        var menu := MenuMessage(Header + MenuLines(results));
        && (answer.None? ==> replies == [menu, Silence, MenuDeleted] && !raised)
        && (answer.Some? && !IsKey(answer.value, |results|) ==> replies == [menu, MenuDeleted, NotFound] && !raised)
        && (answer.Some? && IsKey(answer.value, |results|) ==>
              var d := Shown(pagify(results[DigitsValue(answer.value)].lyrics));
              replies == [menu, MenuDeleted, Lyrics(d)] && (raised <==> d == IndexRaised))
    {
      var c := ObtainClient(apiKey);
      if c.None? {
        return [NoKeySet], false;
      }
      if !search.Found? {
        return [SearchFailure(search)], false;
      }
      replies, raised := Respond(search.items, answer, pagify);
    }
  }

  /** `lyrics` once the search found something (lyrics/lyrics.py:86-115):
      the menu, then what the answer leads to; a result with an unreadable
      year raises before anything is sent. */
  method Respond(items: seq<Item>, answer: Option<string>, pagify: string -> seq<string>)
    returns (replies: seq<Reply>, raised: bool)
    ensures (exists i :: 0 <= i < |items| && Broken(items[i])) ==> replies == [] && raised
    ensures (forall i :: 0 <= i < |items| ==> !Broken(items[i])) ==>
      var results := Results(items);
      var menu := MenuMessage(Header + MenuLines(results));
      && (answer.None? ==> replies == [menu, Silence, MenuDeleted] && !raised)
      && (answer.Some? && !IsKey(answer.value, |results|) ==> replies == [menu, MenuDeleted, NotFound] && !raised)
      && (answer.Some? && IsKey(answer.value, |results|) ==>
            var d := Shown(pagify(results[DigitsValue(answer.value)].lyrics));
            replies == [menu, MenuDeleted, Lyrics(d)] && (raised <==> d == IndexRaised))
  {
    var menu := TitleChoose(items);
    if menu.Err? {
      return [], true;
    }
    replies, raised := Answer(menu.value, Results(items), answer, pagify);
  }

  /** What follows the menu in `lyrics` (lyrics/lyrics.py:86-115): the
      menu is sent, and deleted once the wait ends; an answer that is not a key is
      refused, a key shows the lyrics of its result. */
  method Answer(menu: Menu, results: seq<Item>, answer: Option<string>, pagify: string -> seq<string>)
    returns (replies: seq<Reply>, raised: bool)
    requires KeysNumbered(menu.choices, |results|) && ValuesNumbered(menu.choices, results)
    requires forall x :: x in results ==> x.LyricResult?
    ensures answer.None? ==> replies == [MenuMessage(menu.message), Silence, MenuDeleted] && !raised
    ensures answer.Some? && !IsKey(answer.value, |results|) ==> replies == [MenuMessage(menu.message), MenuDeleted, NotFound] && !raised
    ensures answer.Some? && IsKey(answer.value, |results|) ==>
      var d := Shown(pagify(results[DigitsValue(answer.value)].lyrics));
      replies == [MenuMessage(menu.message), MenuDeleted, Lyrics(d)] && (raised <==> d == IndexRaised)
  {
    var sent := MenuMessage(menu.message);
    if answer.None? {
      return [sent, Silence, MenuDeleted], false;
    }
    ChooseFromMenu(results, menu, answer.value);
    var choice := Choose(menu, answer);
    if choice.NotInList? {
      return [sent, MenuDeleted, NotFound], false;
    }
    var d := ShowLyrics(choice.music, pagify(choice.music.lyrics));
    return [sent, MenuDeleted, Lyrics(d)], d == IndexRaised;
  }

  /** A client exists or can be made from the shared key. */
  predicate KeyReady(client: Option<string>, apiKey: Option<string>) {
    client.Some? || (apiKey.Some? && apiKey.value != "")
  }

  /** The message for a failed search (lyrics/lyrics.py:71-84). */
  function SearchFailure(search: Search): Reply
    requires !search.Found?
  {
    match search
    case NoResults => NoLyrics
    case ApiError(e) => UnknownApiError(e)
    case Forbidden => RequestForbidden
    case KeyRejected => WrongKey
  }
}
