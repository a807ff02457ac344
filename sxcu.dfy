/** The SXCU plugin (sxcu/core.py): a link is checked, shortened through
    the sxcu.net instance whose address is kept in the bot's shared API
    tokens, and answered with the short URL; the deletion URL goes to the
    author by DM, and into the public answer when the DM fails. The HTTP
    request and the DM are parameters. */
module Sxcu {
  import opened Wrappers
  import opened Strings

  // ---------------------------------------------------------------------
  // The link check

  /** The characters `\s` matches in a `str` pattern. */
  predicate IsSpace(c: char) {
    c == ' ' || '\t' <= c <= '\r' || '\U{1c}' <= c <= '\U{1f}' || c == '\U{85}' || c == '\U{a0}'
    || c == '\U{1680}' || '\U{2000}' <= c <= '\U{200a}' || c == '\U{2028}' || c == '\U{2029}'
    || c == '\U{202f}' || c == '\U{205f}' || c == '\U{3000}'
  }

  /** `https?://[^\s]+` matches at position `i` of `s`. */
  predicate LinkAt(s: string, i: nat)
    requires i <= |s|
  {
    (StartsWith(s[i..], "http://") && i + 7 < |s| && !IsSpace(s[i + 7]))
    || (StartsWith(s[i..], "https://") && i + 8 < |s| && !IsSpace(s[i + 8]))
  }

  /** `re.search` of that pattern, trying every start from `i` on. */
  function LinkFrom(s: string, i: nat): bool
    requires i <= |s|
    decreases |s| - i
  {
    i < |s| && (LinkAt(s, i) || LinkFrom(s, i + 1))
  }

  /** The search finds a match iff one starts somewhere from `i` on. */
  lemma {:induction false} LinkFromFinds(s: string, i: nat)
    requires i <= |s|
    ensures LinkFrom(s, i) <==> exists j :: i <= j < |s| && LinkAt(s, j)
    decreases |s| - i
  {
    if i < |s| {
      LinkFromFinds(s, i + 1);
      if !LinkAt(s, i) && exists j :: i <= j < |s| && LinkAt(s, j) {
        var j :| i <= j < |s| && LinkAt(s, j);
        assert i + 1 <= j;
      }
    }
  }

  /** The check in `_shorten_command_logic` (sxcu/core.py:30-33): the text
      is accepted iff it holds "http://" or "https://" followed by at least
      one character that is not white space. */
  function IsLink(link: string): (r: bool)
    ensures r <==> exists j :: 0 <= j < |link| && LinkAt(link, j)
  {
    LinkFromFinds(link, 0);
    LinkFrom(link, 0)
  }

  // ---------------------------------------------------------------------
  // Credentials, the request and the answer

  /** The exceptions `shortener` raises, and their text. */
  datatype Failure = UrlNotConfigured | KeyNotSet | ServerError

  function FailureText(f: Failure): string {
    match f
    case UrlNotConfigured => "URL for sxcu.net is not configured."
    case KeyNotSet => "API key for sxcu.net is not set."
    case ServerError => "An error has been returned by the server."
  }

  /** One trailing "/" taken off (sxcu/core.py:131-132). */
  function StripSlash(url: string): (r: string)
    ensures url == r || url == r + "/"
    ensures url == r + "/" <==> url != "" && url[|url| - 1] == '/'
  {
    if url != "" && url[|url| - 1] == '/' then url[..|url| - 1] else url
  }

  /** What the server answered: its status and, for 200, the `url` and
      `del_url` of its JSON. */
  datatype Response = Response(status: int, url: string, delUrl: string)

  datatype Field = Field(name: string, value: string)

  /** A message: plain text, or an embed with its optional content. */
  datatype Message =
    | Text(text: string)
    | Embedded(content: Option<string>, title: string, fields: seq<Field>)

  const InvalidLink: string := "It look like your link isn't valid."
  const UploadedTitle: string := "Your link has been uploaded! \U{1F389}"
  const UploadedText: string := "Your link has been uploaded! \U{1F389}\nYou can access it through this link: "

  /** The embed sent by DM with the deletion link (sxcu/core.py:42-49). */
  function DeletionDm(deletionUrl: string, link: string): Message {
    Embedded(None, "Deletion Link", [Field("Link", "[Click for deleting access](" + deletionUrl + ") to " + link + ".")])
  }

  /** The public answer (sxcu/core.py:53-85): an embed with its content
      when embeds may be used, text otherwise; the deletion URL is added
      to both when the DM was not delivered. */
  function Answer(url: string, deletionUrl: string, dmed: bool, embeds: bool): Message {
    if embeds then
      Embedded(Some(EmbedContent(url, deletionUrl, dmed)), UploadedTitle,
        [UrlField(url)] + (if dmed then [] else [DeletionField(deletionUrl)]))
    else Text(AnswerText(url, deletionUrl, dmed))
  }

  function EmbedContent(url: string, deletionUrl: string, dmed: bool): string {
    "URL: " + url + (if dmed then "" else "\nDeletion URL: " + deletionUrl)
  }

  function UrlField(url: string): Field {
    Field("Your new URL!", "You can access to your website [by clicking on me](" + url + ")!")
  }

  function DeletionField(deletionUrl: string): Field {
    Field("Deletion URL", DeletionLead + deletionUrl + ").")
  }

  const DeletionLead: string := "Since I was unable to DM you with the deletion link, [you can delete the access by clicking here]("

  function AnswerText(url: string, deletionUrl: string, dmed: bool): string {
    UploadedText + url + (if dmed then "" else DeletionSentence + deletionUrl)
  }

  const DeletionSentence: string := "\n\nI was unable to DM you the deletion link, so use this link to delete access: "

  predicate EndsWith(s: string, suffix: string) {
    |suffix| <= |s| && s[|s| - |suffix|..] == suffix
  }

  /** The embed answer's content always gives the short URL first, and
      ends with the deletion URL exactly when the DM was not delivered. */
  lemma EmbedContentShowsDeletionIffNotDmed(url: string, deletionUrl: string, dmed: bool)
    ensures var c := EmbedContent(url, deletionUrl, dmed);
      && StartsWith(c, "URL: " + url)
      && (c == "URL: " + url <==> dmed)
      && (!dmed ==> EndsWith(c, deletionUrl))
  {
    var head := "URL: " + url;
    var c := EmbedContent(url, deletionUrl, dmed);
    if !dmed {
      assert c == head + ("\nDeletion URL: " + deletionUrl);
      assert c[|c| - |deletionUrl|..] == deletionUrl;
    }
    assert c[..|head|] == head;
  }

  /** The field added for the deletion URL shows it. */
  lemma DeletionFieldShowsIt(deletionUrl: string)
    ensures Contains(DeletionField(deletionUrl).value, deletionUrl)
  {
    var v := DeletionField(deletionUrl).value;
    assert v == DeletionLead + (deletionUrl + ").");
    assert v[|DeletionLead|..][..|deletionUrl|] == deletionUrl;
  }

  /** The embed answer has a field for the deletion URL, after the one for
      the short URL, exactly when the DM was not delivered. */
  lemma EmbedShowsDeletionIffNotDmed(url: string, deletionUrl: string, dmed: bool)
    ensures var a := Answer(url, deletionUrl, dmed, true);
      && a.Embedded? && a.content == Some(EmbedContent(url, deletionUrl, dmed))
      && |a.fields| >= 1 && a.fields[0] == UrlField(url)
      && (|a.fields| == 2 <==> !dmed)
      && (!dmed ==> a.fields[1].name == "Deletion URL" && Contains(a.fields[1].value, deletionUrl))
  {
    if !dmed {
      DeletionFieldShowsIt(deletionUrl);
    }
  }

  /** The text answer always gives the short URL first, and ends with the
      deletion URL exactly when the DM was not delivered. */
  lemma TextShowsDeletionIffNotDmed(url: string, deletionUrl: string, dmed: bool)
    ensures var a := Answer(url, deletionUrl, dmed, false);
      && a.Text? && StartsWith(a.text, UploadedText + url)
      && (a.text == UploadedText + url <==> dmed)
      && (!dmed ==> EndsWith(a.text, deletionUrl))
  {
    var head := UploadedText + url;
    var t := AnswerText(url, deletionUrl, dmed);
    if !dmed {
      assert t == head + (DeletionSentence + deletionUrl);
      assert t[|t| - |deletionUrl|..] == deletionUrl;
    }
    assert t[..|head|] == head;
  }

  /** The plugin, with the shared API tokens of the "sxcu" service it
      reads and rewrites. */
  class Sxcu {
    var tokens: map<string, string>

    constructor (tokens: map<string, string>)
      ensures this.tokens == tokens
    {
      this.tokens := tokens;
    }

    /** `_obtain_creditentials` (sxcu/core.py:110-134): a missing or empty
        `url` raises; asking for the token always raises, set or not;
        otherwise the URL is returned with one trailing "/" taken off, and
        the shortened URL is stored back. */
    method ObtainCredentials(needToken: bool) returns (r: Result<string, Failure>)
      modifies this
      ensures "url" !in old(tokens) || old(tokens)["url"] == "" ==> r == Err(UrlNotConfigured) && tokens == old(tokens)
      ensures "url" in old(tokens) && old(tokens)["url"] != "" && needToken ==> r == Err(KeyNotSet) && tokens == old(tokens)
      ensures "url" in old(tokens) && old(tokens)["url"] != "" && !needToken ==>
        r == Ok(StripSlash(old(tokens)["url"])) && tokens == old(tokens)["url" := r.value]
    {
      var listing: seq<string> := [];
      if "url" !in tokens || tokens["url"] == "" {
        return Err(UrlNotConfigured);
      }
      var possibleUrl := tokens["url"];
      listing := listing + [possibleUrl];
      if needToken {
        if "api_key" in tokens && tokens["api_key"] != "" {
          listing := listing + [tokens["api_key"]];
        }
        return Err(KeyNotSet);
      }
      if possibleUrl[|possibleUrl| - 1] == '/' {
        possibleUrl := possibleUrl[..|possibleUrl| - 1];
        tokens := tokens["url" := possibleUrl];
      }
      r := Ok(possibleUrl);
    }

    /** `shortener` (sxcu/core.py:87-108): the POST goes to the stored URL
        followed by "/shorten"; a status other than 200 raises, otherwise
        the short URL and the deletion URL are returned. */
    method Shortener(response: Response) returns (posted: Option<string>, r: Result<(string, string), Failure>)
      modifies this
      ensures "url" !in old(tokens) || old(tokens)["url"] == "" ==> posted.None? && r == Err(UrlNotConfigured) && tokens == old(tokens)
      ensures "url" in old(tokens) && old(tokens)["url"] != "" ==>
        && tokens == old(tokens)["url" := StripSlash(old(tokens)["url"])]
        && posted == Some(StripSlash(old(tokens)["url"]) + "/shorten")
        && r == (if response.status != 200 then Err(ServerError) else Ok((response.url, response.delUrl)))
    {
      var url := ObtainCredentials(false);
      if url.Err? {
        return None, Err(url.error);
      }
      posted := Some(url.value + "/shorten");
      if response.status != 200 {
        return posted, Err(ServerError);
      }
      r := Ok((response.url, response.delUrl));
    }

    /** `_shorten_command_logic` (sxcu/core.py:29-85): `dmDelivered` says
        whether the DM went through, `embeds` whether the bot may and
        should answer with an embed. */
    method ShortenCommand(link: string, response: Response, dmDelivered: bool, embeds: bool)
      returns (dm: Option<Message>, answer: Message)
      modifies this
      ensures !IsLink(link) ==> dm.None? && answer == Text(InvalidLink) && tokens == old(tokens)
      ensures IsLink(link) && ("url" !in old(tokens) || old(tokens)["url"] == "") ==>
        dm.None? && answer == Text(FailureText(UrlNotConfigured)) && tokens == old(tokens)
      ensures IsLink(link) && "url" in old(tokens) && old(tokens)["url"] != "" ==>
        && tokens == old(tokens)["url" := StripSlash(old(tokens)["url"])]
        && (response.status != 200 ==> dm.None? && answer == Text(FailureText(ServerError)))
        && (response.status == 200 ==>
              && dm == Some(DeletionDm(response.delUrl, link))
              && answer == Answer(response.url, response.delUrl, dmDelivered, embeds))
    {
      if !IsLink(link) {
        return None, Text(InvalidLink);
      }
      var posted, result := Shortener(response);
      if result.Err? {
        return None, Text(FailureText(result.error));
      }
      var (url, deletionUrl) := result.value;
      dm := Some(DeletionDm(deletionUrl, link));
      answer := Answer(url, deletionUrl, dmDelivered, embeds);
    }
  }

  /** Once the URL has been read, the stored URL is the one the request
      went to: a URL with one trailing "/" is read the same way the next
      time, and only a URL ending in several slashes loses one more. */
  lemma StripSlashStable(url: string)
    ensures StripSlash(StripSlash(url)) == StripSlash(url) <==> !EndsWith(url, "//")
  {
    var once := StripSlash(url);
    if EndsWith(url, "//") {
      assert url[|url| - 2..] == "//";
      assert url[|url| - 1] == '/' && url[|url| - 2] == '/';
      assert once == url[..|url| - 1];
      assert once[|once| - 1] == '/';
    } else if url != "" && url[|url| - 1] == '/' {
      assert once == url[..|url| - 1];
    }
  }
}
