/**
 * The `tldr` command: choose the platform from the argument count, try the
 * platform page and then the common page, and split the markdown that is
 * found into a title and a description.
 */
module Tldr {
  import opened Wrappers
  import Text
  import Arguments
  import opened Embeds

  const Platforms: set<string> := {"linux", "windows", "macos"}

  const ArgumentCountError := "Invalid number of arguments"
  const ParseError := "There was an error while parsing the markdown"

  /** The platform the page is looked up for. */
  function PlatformOf(tokens: seq<string>): string
  {
    if |tokens| == 2 && tokens[0] in Platforms then tokens[0] else "linux"
  }

  /**
   * Platform choice: one token searches linux; with two, the first names the
   * platform (linux when it is not one of the three) and the second is searched.
   */
  method ResolvePlatform(tokens: seq<string>) returns (r: Result<(string, string), string>)
    requires forall i :: 0 <= i < |tokens| ==> tokens[i] != ""
    ensures r.Success? <==> |tokens| == 1 || |tokens| == 2
    ensures r.Failure? ==> r.error == ArgumentCountError
    ensures r.Success? ==> r.value.0 in Platforms && r.value.1 == tokens[|tokens| - 1]
    ensures r.Success? ==> r.value.0 == PlatformOf(tokens)
    ensures |tokens| == 2 && tokens[0] !in Platforms ==> r == Success(("linux", tokens[1]))
  {
    var args := new Arguments.Args(tokens);
    var platform: string;
    var count := args.Len();
    if count == 1 {
      platform := "linux";
    } else if count == 2 {
      var platformArg := args.Single();
      if platformArg.value in Platforms {
        platform := platformArg.value;
      } else {
        platform := "linux";
      }
    } else {
      return Failure(ArgumentCountError);
    }
    var searchString := args.Single();
    r := Success((platform, searchString.value));
  }

  const PagesBase := "https://raw.githubusercontent.com/tldr-pages/tldr/master/pages/"

  /** The raw markdown of one page: the pages root, the directory, then "<search>.md". */
  function PageUrl(directory: string, search: string): (url: string)
    ensures PagesBase <= url
    ensures url[|PagesBase|..] == directory + "/" + search + ".md"
  {
    PagesBase + directory + "/" + search + ".md"
  }

  /** The pages tried, in order: the platform's own, then the common one. */
  function CandidateUrls(platform: string, search: string): (urls: seq<string>)
    ensures |urls| == 2
    ensures urls[0] == PageUrl(platform, search) && urls[1] == PageUrl("common", search)
  {
    [PageUrl(platform, search), PageUrl("common", search)]
  }

  /** For each of the three platforms the fallback really tries a second, different page. */
  lemma PlatformPageIsNotCommon(platform: string, search: string)
    requires platform in Platforms
    ensures CandidateUrls(platform, search)[0] != CandidateUrls(platform, search)[1]
  {
    var own, common := PageUrl(platform, search), PageUrl("common", search);
    assert own[|PagesBase|] == platform[0];
    assert common[|PagesBase|] == 'c';
  }

  /** What an HTTP GET of one page gives back. */
  datatype Response = Response(status: nat, body: string)

  /** Index of the first candidate that does not answer 404, or |urls| if all do. */
  function FirstNon404(urls: seq<string>, get: string -> Response): (k: nat)
    ensures k <= |urls|
    ensures forall i :: 0 <= i < k ==> get(urls[i]).status == 404
    ensures k < |urls| ==> get(urls[k]).status != 404
  {
    if urls == [] || get(urls[0]).status != 404 then 0 else 1 + FirstNon404(urls[1..], get)
  }

  /** The first non-404 index is the only index with that description. */
  lemma FirstNon404Unique(urls: seq<string>, get: string -> Response, k: nat)
    requires k <= |urls|
    requires forall j :: 0 <= j < k ==> get(urls[j]).status == 404
    requires k < |urls| ==> get(urls[k]).status != 404
    ensures FirstNon404(urls, get) == k
  {
  }

  /** Remove every leading ' ' and '#' (`trim_start_matches`). */
  function TrimHeading(line: string): (r: string)
    ensures |r| <= |line| && r == line[|line| - |r|..]
    ensures r == "" || (r[0] != ' ' && r[0] != '#')
    ensures forall i :: 0 <= i < |line| - |r| ==> line[i] == ' ' || line[i] == '#'
  {
    if line != [] && (line[0] == ' ' || line[0] == '#') then TrimHeading(line[1..]) else line
  }

  /** `get_tldr_content_from_markdown`: heading line as title, the other lines as description. */
  function ContentFromMarkdown(body: string): (r: Option<(string, string)>)
    ensures r.None? <==> body == ""
    ensures r.Some? ==> r.value.0 == TrimHeading(Text.Lines(body)[0])
    ensures r.Some? ==> r.value.1 == Text.Join(Text.Lines(body)[1..], "\n")
  {
    var lines := Text.Lines(body);
    if lines == [] then None
    else Some((TrimHeading(lines[0]), Text.Join(lines[1..], "\n")))
  }

  /**
   * For a body with "\n" line endings and no final one, the heading line,
   * a line feed and the description make up the whole body again.
   */
  lemma MarkdownSplitRoundTrip(body: string)
    requires forall i :: 0 <= i < |body| ==> body[i] != '\r'
    requires body != "" && body[|body| - 1] != '\n'
    ensures var lines := Text.Lines(body);
      |lines| > 1 ==> body == lines[0] + "\n" + ContentFromMarkdown(body).value.1
    ensures |Text.Lines(body)| == 1 ==> ContentFromMarkdown(body).value.1 == ""
  {
    Text.LinesJoinRoundTrip(body);
  }

  /** The reply `tldr` sends and its result, once the candidate URLs are fixed. */
  ghost predicate FetchOutcome(urls: seq<string>, get: string -> Response, search: string,
                               r: Result<Reply, string>)
  {
    var k := FirstNon404(urls, get);
    if k == |urls| then
      r == Success(ContentReply("Could not find a tl:dr page for '" + search + "'"))
    else if get(urls[k]).status == 200 then
      match ContentFromMarkdown(get(urls[k]).body)
      case None => r == Failure(ParseError)
      case Some(content) => r == Success(EmbedReply(content.0, content.1))
    else
      r == Failure("Unexpected response status: " + Text.NatToDecimal(get(urls[k]).status))
  }

  /** The fallback walk: 404 moves on, 200 answers, anything else is an error. */
  method FetchPage(urls: seq<string>, get: string -> Response, search: string)
    returns (r: Result<Reply, string>)
    ensures FetchOutcome(urls, get, search, r)
  {
    for i := 0 to |urls|
      invariant forall j :: 0 <= j < i ==> get(urls[j]).status == 404
    {
      var resp := get(urls[i]);
      if resp.status == 404 {
        // not on this page: try the next one
      } else if resp.status == 200 {
        FirstNon404Unique(urls, get, i);
        match ContentFromMarkdown(resp.body) {
          case None => return Failure(ParseError);
          case Some(content) => return Success(EmbedReply(content.0, content.1));
        }
      } else {
        FirstNon404Unique(urls, get, i);
        return Failure("Unexpected response status: " + Text.NatToDecimal(resp.status));
      }
    }
    FirstNon404Unique(urls, get, |urls|);
    r := Success(ContentReply("Could not find a tl:dr page for '" + search + "'"));
  }

  /** The whole `tldr` handler with the HTTP GET as a parameter. */
  method Tldr(tokens: seq<string>, get: string -> Response) returns (r: Result<Reply, string>)
    requires forall i :: 0 <= i < |tokens| ==> tokens[i] != ""
    ensures |tokens| != 1 && |tokens| != 2 ==> r == Failure(ArgumentCountError)
    ensures |tokens| == 1 || |tokens| == 2 ==>
      var search := tokens[|tokens| - 1];
      FetchOutcome(CandidateUrls(PlatformOf(tokens), search), get, search, r)
  {
    var resolved := ResolvePlatform(tokens);
    match resolved {
      case Failure(e) => return Failure(e);
      case Success(platformAndSearch) =>
        var (platform, search) := platformAndSearch;
        r := FetchPage(CandidateUrls(platform, search), get, search);
    }
  }

  /** A page missing for the platform but present in common is the one shown. */
  lemma CommonPageFallback(platform: string, search: string, get: string -> Response)
    requires get(PageUrl(platform, search)).status == 404
    requires get(PageUrl("common", search)).status == 200
    ensures FirstNon404(CandidateUrls(platform, search), get) == 1
  {
  }
}
