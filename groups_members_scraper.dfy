/**
 * The group members scraper: scroll a group's member list until it stops
 * growing, collect the profile links, visit every profile, and save the
 * results as JSON and CSV.
 *
 * The site is an oracle (`Site`): whether its pages load, what each scroll
 * iteration observes, the list items of the rendered member list, and what
 * each profile page shows. The files written go to a `Disk`.
 */
module GroupsMembers {
  import opened Wrappers
  import opened Text
  import opened MemberRecords
  import opened UrlJoin

  // ---------------------------------------------------------------------------
  // What the site shows

  /** The profile-link anchor of a list item; its `href` attribute may be missing. */
  datatype Anchor = Anchor(href: Option<string>)

  /** One `li` of the results list, with its profile-link anchor when it has one. */
  datatype ListItem = ListItem(profileLink: Option<Anchor>)

  /** What one iteration of the scroll loop observes: a "Show more results" button, then the page height. */
  datatype Round = Round(showMore: bool, height: int)

  /**
   * A profile page as `get_members_infos` reads it: the raw inner texts of the
   * name, headline and country elements (`None` for an element that is not
   * there), or a visit that raised.
   */
  datatype ProfilePage =
    | Loaded(name: Option<string>, headline: Option<string>, country: Option<string>)
    | LoadFailed

  /**
   * The group as the logged-in session sees it: whether the group page and its
   * members page load, whether the members search box is there, the rounds
   * the scroll loop observes, the rendered results list (`None` when the list
   * container is missing), and each profile URL's page.
   */
  datatype Site = Site(
    groupPageLoads: bool,
    membersPageLoads: bool,
    searchBox: bool,
    rounds: seq<Round>,
    listing: Option<seq<ListItem>>,
    profile: string -> ProfilePage)

  /** How a call ends: with a value, with an exception, or not yet (the scroll observations ran out first). */
  datatype Completion<T> = Returned(value: T) | Raised | Pending

  // ---------------------------------------------------------------------------
  // Scrolling

  /** The height the loop compares the `i`-th reading with: 0 before the first. */
  function PrevHeight(rounds: seq<Round>, i: nat): int
    requires i < |rounds|
  {
    if i == 0 then 0 else rounds[i - 1].height
  }

  /** The loop leaves after round `i`: the height did not change and there was no button. */
  predicate StopsAt(rounds: seq<Round>, i: nat)
    requires i < |rounds|
  {
    rounds[i].height == PrevHeight(rounds, i) && !rounds[i].showMore
  }

  predicate Settles(rounds: seq<Round>) {
    exists i: nat | i < |rounds| :: StopsAt(rounds, i)
  }

  /**
   * A page whose height strictly grows from a non-zero start and then repeats
   * once, with no button in that round, is left after exactly that round.
   */
  lemma SettlesAtPlateau(rounds: seq<Round>, k: nat)
    requires 0 < k < |rounds|
    requires rounds[0].height != 0
    requires forall i :: 0 < i < k ==> rounds[i - 1].height < rounds[i].height
    requires rounds[k].height == rounds[k - 1].height && !rounds[k].showMore
    ensures StopsAt(rounds, k)
    ensures forall i: nat :: i < k ==> !StopsAt(rounds, i)
  {
  }

  /** A button found in a round forces another round, whatever the height. */
  lemma ButtonKeepsScrolling(rounds: seq<Round>, i: nat)
    requires i < |rounds| && rounds[i].showMore
    ensures !StopsAt(rounds, i)
  {
  }

  // ---------------------------------------------------------------------------
  // The results list

  /** An item whose anchor has no `href`: reading it raises KeyError. */
  predicate Broken(item: ListItem) {
    item.profileLink.Some? && item.profileLink.value.href.None?
  }

  /** The resolved profile URL an item contributes: none without an anchor. */
  function ItemUrls(item: ListItem): seq<string> {
    match item.profileLink
    case Some(Anchor(Some(href))) => [ResolveUrl(href)]
    case _ => []
  }

  /** The resolved profile URLs of the items, in list order. */
  function Resolved(items: seq<ListItem>): seq<string> {
    if items == [] then []
    else Resolved(items[..|items| - 1]) + ItemUrls(items[|items| - 1])
  }

  /** The number of items read before the first broken one. */
  function UntilBroken(items: seq<ListItem>): (k: nat)
    ensures k <= |items|
    ensures forall j :: 0 <= j < k ==> !Broken(items[j])
    ensures k < |items| ==> Broken(items[k])
  {
    if items == [] || Broken(items[0]) then 0
    else 1 + UntilBroken(items[1..])
  }

  /** What the parsing loop of `get_members_urls` collects: the URLs read before it raises. */
  function ProfileUrls(items: seq<ListItem>): seq<string> {
    Resolved(items[..UntilBroken(items)])
  }

  predicate HasLink(item: ListItem) {
    item.profileLink.Some? && item.profileLink.value.href.Some?
  }

  /** The number of items with a profile link. */
  function LinkCount(items: seq<ListItem>): nat {
    if items == [] then 0
    else LinkCount(items[..|items| - 1]) + (if HasLink(items[|items| - 1]) then 1 else 0)
  }

  /**
   * One URL per item with a profile link, none of them empty: a listing of N
   * linked rows gives N URLs.
   */
  lemma {:induction false} ResolvedCount(items: seq<ListItem>)
    ensures |Resolved(items)| == LinkCount(items)
    ensures forall k :: 0 <= k < |Resolved(items)| ==> Resolved(items)[k] != ""
  {
    if items != [] {
      ResolvedCount(items[..|items| - 1]);
    }
  }

  /** Each resolved URL comes from an item with a profile link, and each such item gives its URL. */
  lemma {:induction false} ResolvedMembers(items: seq<ListItem>, u: string)
    ensures u in Resolved(items) <==>
              exists i :: 0 <= i < |items| && HasLink(items[i]) && u == ResolveUrl(items[i].profileLink.value.href.value)
  {
    if items != [] {
      var n := |items| - 1;
      var init := items[..n];
      ResolvedMembers(init, u);
      if u in Resolved(init) {
        var i :| 0 <= i < |init| && HasLink(init[i]) && u == ResolveUrl(init[i].profileLink.value.href.value);
        assert items[i] == init[i];
      }
      if exists i :: 0 <= i < |items| && HasLink(items[i]) && u == ResolveUrl(items[i].profileLink.value.href.value) {
        var i :| 0 <= i < |items| && HasLink(items[i]) && u == ResolveUrl(items[i].profileLink.value.href.value);
        if i < n {
          assert init[i] == items[i];
        }
      }
    }
  }

  lemma {:induction false} ResolvedAppend(a: seq<ListItem>, b: seq<ListItem>)
    ensures Resolved(a + b) == Resolved(a) + Resolved(b)
  {
    if b != [] {
      var n := |b| - 1;
      ResolvedAppend(a, b[..n]);
      assert (a + b)[..|a + b| - 1] == a + b[..n];
    } else {
      assert a + b == a;
    }
  }

  /**
   * When an item lacks its `href`, the URLs already collected are kept: they
   * are exactly a prefix of what the complete list would have given.
   */
  lemma ProfileUrlsIsPrefix(items: seq<ListItem>)
    ensures ProfileUrls(items) <= Resolved(items)
    ensures (forall i :: 0 <= i < |items| ==> !Broken(items[i])) ==> ProfileUrls(items) == Resolved(items)
  {
    var k := UntilBroken(items);
    ResolvedSplit(items, k);
    if k == |items| {
      assert items[..k] == items;
    }
  }

  /** Splitting the listing at `k` splits the collected URLs there. */
  lemma ResolvedSplit(items: seq<ListItem>, k: nat)
    requires k <= |items|
    ensures Resolved(items[..k]) <= Resolved(items)
  {
    var before, after := items[..k], items[k..];
    assert before + after == items;
    ResolvedAppend(before, after);
    PrefixOfAppend(Resolved(before), Resolved(after));
  }

  lemma PrefixOfAppend<T>(a: seq<T>, b: seq<T>)
    ensures a <= a + b
  {
    assert (a + b)[..|a|] == a;
  }

  // ---------------------------------------------------------------------------
  // Profiles

  function StripOpt(text: Option<string>): Option<string> {
    match text
    case None => None
    case Some(t) => Some(Strip(t))
  }

  /** The record `get_members_infos` keeps for one URL: none when the visit raised. */
  function InfoRecords(url: string, page: ProfilePage): seq<Record> {
    match page
    case LoadFailed => []
    case Loaded(name, headline, country) =>
      [MemberRecord(StripOpt(name), StripOpt(headline), StripOpt(country), url)]
  }

  function MemberInfos(urls: seq<string>, profile: string -> ProfilePage): seq<Record> {
    if urls == [] then []
    else
      var n := |urls| - 1;
      MemberInfos(urls[..n], profile) + InfoRecords(urls[n], profile(urls[n]))
  }

  /** The URLs whose profile page loaded, in input order. */
  function LoadedUrls(urls: seq<string>, profile: string -> ProfilePage): seq<string> {
    if urls == [] then []
    else
      var n := |urls| - 1;
      LoadedUrls(urls[..n], profile) + (if profile(urls[n]).Loaded? then [urls[n]] else [])
  }

  /**
   * `get_members_infos` keeps one record per URL whose visit did not raise, in
   * input order: the records' `profile_url` column is exactly the loaded
   * URLs, so there are never more records than URLs, and each record has
   * exactly the four keys.
   */
  lemma {:induction false} MemberInfosSpec(urls: seq<string>, profile: string -> ProfilePage)
    ensures Column(MemberInfos(urls, profile), "profile_url") == LoadedUrls(urls, profile)
    ensures |MemberInfos(urls, profile)| <= |urls|
    ensures MemberShaped(MemberInfos(urls, profile))
  {
    if urls != [] {
      var n := |urls| - 1;
      MemberInfosSpec(urls[..n], profile);
      var init := MemberInfos(urls[..n], profile);
      var ms := MemberInfos(urls, profile);
      var extra := InfoRecords(urls[n], profile(urls[n]));
      assert ms == init + extra;
      if extra != [] {
        var r := extra[0];
        MemberRecordKeys(r[0].value, r[1].value, r[2].value, urls[n]);
        RowOfMemberShaped(r);
        assert Cell(r, "profile_url") == CsvRow(Columns, r)[3];
      }
      assert Column(ms, "profile_url")[..|init|] == Column(init, "profile_url");
    }
  }

  /** No member records at all means that no profile visit succeeded. */
  lemma {:induction false} NoMembersMeansNoVisitLoaded(urls: seq<string>, profile: string -> ProfilePage)
    ensures MemberInfos(urls, profile) == [] <==> forall i :: 0 <= i < |urls| ==> profile(urls[i]).LoadFailed?
  {
    if urls != [] {
      var n := |urls| - 1;
      NoMembersMeansNoVisitLoaded(urls[..n], profile);
      if MemberInfos(urls, profile) == [] {
        forall i | 0 <= i < |urls| ensures profile(urls[i]).LoadFailed? {
          if i < n {
            assert urls[..n][i] == urls[i];
          }
        }
      } else {
        assert forall i :: 0 <= i < n ==> urls[..n][i] == urls[i];
      }
    }
  }

  // ---------------------------------------------------------------------------
  // Output names

  /**
   * Python's `name.replace('.csv', '.json')`: every ".csv", scanning left to
   * right, becomes ".json". Each replacement adds one character, and the first
   * character is kept.
   */
  function JsonName(name: string): (r: string)
    ensures |r| == |name| + CsvCount(name)
    ensures name != [] ==> r[0] == name[0]
  {
    if |name| < 4 then name
    else if name[..4] == ".csv" then ".json" + JsonName(name[4..])
    else [name[0]] + JsonName(name[1..])
  }

  /** The number of ".csv" that `JsonName` replaces. */
  function CsvCount(name: string): nat {
    if |name| < 4 then 0
    else if name[..4] == ".csv" then 1 + CsvCount(name[4..])
    else CsvCount(name[1..])
  }

  /** A character other than '.' in front of a name adds no ".csv". */
  lemma CsvCountSkip(c: char, name: string)
    requires c != '.'
    ensures CsvCount([c] + name) == CsvCount(name)
  {
    if |[c] + name| >= 4 {
      assert ([c] + name)[0] == c;
      assert ([c] + name)[1..] == name;
    }
  }

  /** The replacement is complete: no ".csv" is left in the JSON name. */
  lemma {:induction false} JsonNameLeavesNoCsv(name: string)
    ensures CsvCount(JsonName(name)) == 0
    ensures !Contains(JsonName(name), ".csv")
  {
    if |name| < 4 {
    } else if name[..4] == ".csv" {
      JsonNameLeavesNoCsv(name[4..]);
      NoCsvAfterJson(JsonName(name[4..]));
    } else {
      JsonNameLeavesNoCsv(name[1..]);
      NoCsvAfterCopy(name);
    }
    CsvCountPositive(JsonName(name));
  }

  lemma NoCsvAfterJson(rest: string)
    requires CsvCount(rest) == 0
    ensures CsvCount(".json" + rest) == 0
  {
    var w := ".json" + rest;
    assert w[1] == 'j';
    assert w[1..] == ['j'] + (['s'] + (['o'] + (['n'] + rest)));
    CsvCountSkip('n', rest);
    CsvCountSkip('o', ['n'] + rest);
    CsvCountSkip('s', ['o'] + (['n'] + rest));
    CsvCountSkip('j', ['s'] + (['o'] + (['n'] + rest)));
  }

  lemma NoCsvAfterCopy(name: string)
    requires |name| >= 4 && name[..4] != ".csv"
    requires CsvCount(JsonName(name[1..])) == 0
    ensures CsvCount(JsonName(name)) == 0
  {
    var t := name[1..];
    var rest := JsonName(t);
    assert JsonName(name) == [name[0]] + rest;
    if name[0] != '.' {
      CsvCountSkip(name[0], rest);
    } else {
      assert name[..4] == [name[0]] + t[..3];
      NotCsvAfterDot(t);
      NoCsvAfterDotChar(rest);
    }
  }

  /** A '.' in front of a name without ".csv" that does not start "csv" adds no ".csv". */
  lemma NoCsvAfterDotChar(rest: string)
    requires CsvCount(rest) == 0
    requires !(|rest| >= 3 && rest[..3] == "csv")
    ensures CsvCount(['.'] + rest) == 0
  {
    var w := ['.'] + rest;
    if |w| >= 4 {
      assert w[..4] == ['.'] + rest[..3];
      assert w[1..] == rest;
    }
  }

  /** After a '.' that does not start ".csv", the JSON name of the rest does not start "csv". */
  lemma NotCsvAfterDot(t: string)
    requires !(|t| >= 3 && t[..3] == "csv")
    ensures !(|JsonName(t)| >= 3 && JsonName(t)[..3] == "csv")
  {
  }

  lemma {:induction false} CsvCountPositive(name: string)
    ensures CsvCount(name) > 0 <==> Contains(name, ".csv")
  {
    if |name| < 4 {
    } else if name[..4] == ".csv" {
      assert OccursAt(name, ".csv", 0);
    } else {
      CsvCountPositive(name[1..]);
      if Contains(name, ".csv") {
        ContainsTail(name, ".csv");
      }
      if Contains(name[1..], ".csv") {
        var i :| 0 <= i <= |name[1..]| - 4 && OccursAt(name[1..], ".csv", i);
        assert name[i + 1..i + 5] == name[1..][i..i + 4];
        assert OccursAt(name, ".csv", i + 1);
      }
    }
  }

  /**
   * The JSON name equals the CSV name exactly when the name has no ".csv" in
   * it: then both files are written to the same path.
   */
  lemma JsonNameSameExactlyWithoutCsv(name: string)
    ensures JsonName(name) == name <==> !Contains(name, ".csv")
  {
    CsvCountPositive(name);
    if !Contains(name, ".csv") {
      JsonNameIdentity(name);
    }
  }

  lemma {:induction false} JsonNameIdentity(name: string)
    requires CsvCount(name) == 0
    ensures JsonName(name) == name
  {
    if |name| >= 4 {
      JsonNameIdentity(name[1..]);
      assert name == [name[0]] + name[1..];
    }
  }

  /** A ".csv" suffix cannot start inside a stem shorter than four characters. */
  lemma ShortStemBeforeCsv(stem: string)
    requires 0 < |stem| < 4
    ensures (stem + ".csv")[..4] != ".csv"
  {
    var s := stem + ".csv";
    assert s[|stem|] == '.';
    assert ".csv"[|stem|] != '.';
  }

  /** The name of a ".csv" file keeps its stem and ends in ".json". */
  lemma {:induction false} JsonNameOfCsvFile(stem: string)
    ensures JsonName(stem + ".csv") == JsonName(stem) + ".json"
    decreases |stem|
  {
    var s := stem + ".csv";
    if stem == [] {
      assert s == ".csv";
      assert JsonName(s) == ".json" + JsonName(s[4..]);
      assert s[4..] == [];
    } else if |stem| < 4 {
      ShortStemBeforeCsv(stem);
      assert JsonName(s) == [s[0]] + JsonName(s[1..]);
      assert s[1..] == stem[1..] + ".csv";
      JsonNameOfCsvFile(stem[1..]);
      assert JsonName(stem[1..]) == stem[1..];
      assert JsonName(stem) == stem == [stem[0]] + stem[1..];
    } else if stem[..4] == ".csv" {
      assert s[..4] == stem[..4];
      assert JsonName(s) == ".json" + JsonName(s[4..]);
      assert s[4..] == stem[4..] + ".csv";
      JsonNameOfCsvFile(stem[4..]);
    } else {
      assert s[..4] == stem[..4];
      assert JsonName(s) == [s[0]] + JsonName(s[1..]);
      assert s[1..] == stem[1..] + ".csv";
      JsonNameOfCsvFile(stem[1..]);
    }
  }

  // ---------------------------------------------------------------------------
  // Files

  /** The files on disk, by path. */
  class Disk {
    var files: map<string, FileBody>

    method Write(path: string, body: FileBody)
      modifies this
      ensures files == old(files)[path := body]
    {
      files := files[path := body];
    }
  }

  /** The files after a sequence of writes, later writes replacing earlier ones at the same path. */
  function Written(files: map<string, FileBody>, writes: seq<(string, FileBody)>): map<string, FileBody> {
    if writes == [] then files
    else
      var last := writes[|writes| - 1];
      Written(files, writes[..|writes| - 1])[last.0 := last.1]
  }

  lemma WrittenOne(files: map<string, FileBody>, a: (string, FileBody))
    ensures Written(files, [a]) == files[a.0 := a.1]
  {
    assert [a][..0] == [];
  }

  lemma WrittenThree(files: map<string, FileBody>, a: (string, FileBody), b: (string, FileBody), c: (string, FileBody))
    ensures Written(files, [a, b, c]) == files[a.0 := a.1][b.0 := b.1][c.0 := c.1]
  {
    assert [a, b, c][..2] == [a, b];
    assert [a, b][..1] == [a];
    WrittenOne(files, a);
  }

  // ---------------------------------------------------------------------------
  // The run

  /** What `get_members_urls` ends with. */
  function UrlsOutcome(site: Site, search: Option<string>): Completion<seq<string>> {
    if !site.groupPageLoads then Raised
    else if !site.membersPageLoads then Returned([])
    else if search.Some? && search.value != "" && !site.searchBox then Returned([])
    else if !Settles(site.rounds) then Pending
    else if site.listing.None? then Returned([])
    else Returned(ProfileUrls(site.listing.value))
  }

  /** The files `run` writes, in order, once the URL list is in. */
  function RunWrites(urls: seq<string>, profile: string -> ProfilePage, urlsFile: string, membersFile: string)
    : seq<(string, FileBody)>
  {
    if urls == [] then []
    else
      var members := MemberInfos(urls, profile);
      [(urlsFile, JsonText(UrlsJson(urls)))]
      + (if members == [] then []
         else [(membersFile, CsvFile(members)), (JsonName(membersFile), JsonText(RecordsJson(members)))])
  }

  lemma RunWritesAll(urls: seq<string>, profile: string -> ProfilePage, urlsFile: string, membersFile: string)
    requires MemberInfos(urls, profile) != []
    ensures urls != []
    ensures var members := MemberInfos(urls, profile);
            RunWrites(urls, profile, urlsFile, membersFile)
            == [(urlsFile, JsonText(UrlsJson(urls))), (membersFile, CsvFile(members)),
                (JsonName(membersFile), JsonText(RecordsJson(members)))]
  {
  }

  /** The state of a Playwright resource the scraper holds. */
  datatype Lifecycle = Absent | Open | Closed

  /** How `run` ends: normally, by an exception, or not at all while the list keeps growing. */
  datatype RunEnd = Completed | Aborted | StillScrolling

  class GroupsMembersScraper {
    const email: string
    const password: string
    const loginUrl: string
    /** The Playwright driver (`self.playwright`); `Absent` until `startBrowser` sets the attribute. */
    var playwright: Lifecycle
    /** The browser with its context and page (`self.browser`, `self.context`, `self.page`). */
    var browser: Lifecycle

    constructor(email: string, password: string)
      ensures this.email == email && this.password == password
      ensures loginUrl == BaseUrl + "login"
      ensures playwright == Absent && browser == Absent
    {
      this.email := email;
      this.password := password;
      assert "login"[0] == 'l';
      loginUrl := ResolveUrl("login");
      playwright := Absent;
      browser := Absent;
    }

    /** `startBrowser`: starts the driver and opens a browser, a context and a page. */
    method StartBrowser()
      modifies this
      ensures playwright == Open && browser == Open
    {
      playwright := Open;
      browser := Open;
    }

    /** `stop_browser`: closes the browser when there is one and stops the driver when it was started. */
    method StopBrowser()
      modifies this
      ensures browser == (if old(browser) == Absent then Absent else Closed)
      ensures playwright == (if old(playwright) == Absent then Absent else Closed)
    {
      if browser != Absent {
        browser := Closed;
      }
      if playwright != Absent {
        playwright := Closed;
      }
    }

    /**
     * `scroll_to_load_all_members`, over the rounds the page will show: it
     * leaves at the first round whose height equals the previous reading (0
     * at first) with no button found in that round, and reads no further
     * round. `settled` is false when the rounds run out first.
     */
    method ScrollToLoadAllMembers(rounds: seq<Round>) returns (settled: bool, iterations: nat)
      ensures iterations <= |rounds|
      ensures settled == Settles(rounds)
      ensures settled ==> 0 < iterations && StopsAt(rounds, iterations - 1)
      ensures settled ==> forall i: nat :: i < iterations - 1 ==> !StopsAt(rounds, i)
      ensures !settled ==> iterations == |rounds|
    {
      var prevHeight := 0;
      iterations := 0;
      while iterations < |rounds|
        invariant iterations <= |rounds|
        invariant iterations < |rounds| ==> prevHeight == PrevHeight(rounds, iterations)
        invariant forall i: nat :: i < iterations ==> !StopsAt(rounds, i)
      {
        var round := rounds[iterations];
        if round.height == prevHeight && !round.showMore {
          assert StopsAt(rounds, iterations);
          return true, iterations + 1;
        }
        prevHeight := round.height;
        iterations := iterations + 1;
      }
      settled := false;
    }

    /**
     * `get_members_urls`: opening the group page may raise out of it; a failure
     * before the list is read gives an empty list; then, after scrolling, the
     * resolved links of the list items in order, stopping at an anchor without
     * `href` with what was collected so far.
     */
    method GetMembersUrls(site: Site, search: Option<string>) returns (c: Completion<seq<string>>)
      ensures c == UrlsOutcome(site, search)
    {
      if !site.groupPageLoads {
        return Raised;
      }
      if !site.membersPageLoads {
        return Returned([]);
      }
      if search.Some? && search.value != "" && !site.searchBox {
        return Returned([]);
      }
      var settled, iterations := ScrollToLoadAllMembers(site.rounds);
      if !settled {
        return Pending;
      }
      if site.listing.None? {
        return Returned([]);
      }
      var items := site.listing.value;
      var urls: seq<string> := [];
      for i := 0 to |items|
        invariant forall j :: 0 <= j < i ==> !Broken(items[j])
        invariant urls == Resolved(items[..i])
      {
        assert items[..i + 1][..i] == items[..i];
        match items[i].profileLink
        case None =>
        case Some(anchor) =>
          if anchor.href.None? {
            assert UntilBroken(items) == i;
            return Returned(urls);
          }
          var url := ResolveUrl(anchor.href.value);
          if url != "" {
            urls := urls + [url];
          }
      }
      assert items[..|items|] == items;
      return Returned(urls);
    }

    /** `get_members_infos`: one record per URL whose visit did not raise, in URL order. */
    method GetMembersInfos(urls: seq<string>, profile: string -> ProfilePage) returns (members: seq<Record>)
      ensures members == MemberInfos(urls, profile)
    {
      members := [];
      for i := 0 to |urls|
        invariant members == MemberInfos(urls[..i], profile)
      {
        assert urls[..i + 1][..i] == urls[..i];
        var page := profile(urls[i]);
        match page
        case LoadFailed =>
        case Loaded(name, headline, country) =>
          members := members + [MemberRecord(StripOpt(name), StripOpt(headline), StripOpt(country), urls[i])];
      }
      assert urls[..|urls|] == urls;
    }

    /**
     * `save_to_csv`: nothing is written for an empty list; otherwise the file
     * gets the header from the first record's keys and the rows up to the first
     * record the writer refuses, in which case it raises.
     */
    method SaveToCsv(disk: Disk, members: seq<Record>, filename: string) returns (raised: bool)
      modifies disk
      ensures members == [] ==> disk.files == old(disk.files) && !raised
      ensures members != [] ==> disk.files == old(disk.files)[filename := CsvFile(members)]
      ensures members != [] ==> raised == (FirstMisfit(Keys(members[0]), members) < |members|)
    {
      if members == [] {
        return false;
      }
      var header := Keys(members[0]);
      var k := FirstMisfit(header, members);
      disk.Write(filename, CsvText(header, CsvRows(header, members[..k])));
      raised := k < |members|;
    }

    /** `save_to_json`. */
    method SaveToJson(disk: Disk, value: Json, filename: string)
      modifies disk
      ensures disk.files == old(disk.files)[filename := JsonText(value)]
    {
      disk.Write(filename, JsonText(value));
    }

    /**
     * `run`: gets the URL list; saves it and visits the profiles only when it
     * is non-empty; saves CSV and JSON only when some profile gave a record;
     * and stops the browser however it ends, unless it never ends because the
     * list keeps growing.
     */
    method Run(site: Site, disk: Disk, outputUrlsFile: string, outputMembersFile: string, search: Option<string> := None)
      returns (end: RunEnd)
      modifies this, disk
      ensures end == Aborted <==> UrlsOutcome(site, search) == Raised
      ensures end == StillScrolling <==> UrlsOutcome(site, search) == Pending
      ensures end != StillScrolling ==> browser == Closed && playwright == Closed
      ensures end == StillScrolling ==> browser == Open && playwright == Open
      ensures end == Completed ==>
                disk.files == Written(old(disk.files), RunWrites(UrlsOutcome(site, search).value, site.profile,
                                                                 outputUrlsFile, outputMembersFile))
      ensures end != Completed ==> disk.files == old(disk.files)
    {
      StartBrowser();
      var outcome := GetMembersUrls(site, search);
      if outcome.Pending? {
        return StillScrolling;
      }
      if outcome.Raised? {
        StopBrowser();
        return Aborted;
      }
      var urls := outcome.value;
      ghost var before := disk.files;
      if urls != [] {
        SaveToJson(disk, UrlsJson(urls), outputUrlsFile);
        var members := GetMembersInfos(urls, site.profile);
        if members != [] {
          MemberInfosSpec(urls, site.profile);
          MemberShapedFits(members);
          var raised := SaveToCsv(disk, members, outputMembersFile);
          assert !raised;
          SaveToJson(disk, RecordsJson(members), JsonName(outputMembersFile));
          WrittenThree(before, (outputUrlsFile, JsonText(UrlsJson(urls))), (outputMembersFile, CsvFile(members)),
                       (JsonName(outputMembersFile), JsonText(RecordsJson(members))));
          RunWritesAll(urls, site.profile, outputUrlsFile, outputMembersFile);
          assert disk.files == Written(before, RunWrites(urls, site.profile, outputUrlsFile, outputMembersFile));
        } else {
          WrittenOne(before, (outputUrlsFile, JsonText(UrlsJson(urls))));
          assert disk.files == Written(before, RunWrites(urls, site.profile, outputUrlsFile, outputMembersFile));
        }
      }
      assert disk.files == Written(before, RunWrites(urls, site.profile, outputUrlsFile, outputMembersFile));
      assert before == old(disk.files);
      StopBrowser();
      end := Completed;
    }
  }

  // ---------------------------------------------------------------------------
  // What the runs leave on disk

  /**
   * The stages are gated: no URLs, no files; URLs but no profile records, only
   * the URL list; otherwise the URL list, the members CSV and the members
   * JSON, in that order.
   */
  lemma RunWritesGating(urls: seq<string>, profile: string -> ProfilePage, urlsFile: string, membersFile: string)
    ensures urls == [] ==> RunWrites(urls, profile, urlsFile, membersFile) == []
    ensures urls != [] && (forall i :: 0 <= i < |urls| ==> profile(urls[i]).LoadFailed?) ==>
              RunWrites(urls, profile, urlsFile, membersFile) == [(urlsFile, JsonText(UrlsJson(urls)))]
    ensures urls != [] && (exists i :: 0 <= i < |urls| && profile(urls[i]).Loaded?) ==>
              var members := MemberInfos(urls, profile);
              && members != []
              && RunWrites(urls, profile, urlsFile, membersFile)
                 == [(urlsFile, JsonText(UrlsJson(urls))),
                     (membersFile, CsvText(Columns, CsvRows(Columns, members))),
                     (JsonName(membersFile), JsonText(RecordsJson(members)))]
  {
    NoMembersMeansNoVisitLoaded(urls, profile);
    var members := MemberInfos(urls, profile);
    if members != [] {
      MemberInfosSpec(urls, profile);
      CsvFileOfMembers(members);
    }
  }

  /**
   * After a run that found members, the members JSON is at the JSON name, and
   * the members CSV survives at its own name exactly when that name contains
   * ".csv"; otherwise the JSON has overwritten it.
   */
  lemma CsvSurvivesOnlyWithCsvInName(files: map<string, FileBody>, urls: seq<string>, profile: string -> ProfilePage,
                                     urlsFile: string, membersFile: string)
    requires MemberInfos(urls, profile) != []
    ensures var after := Written(files, RunWrites(urls, profile, urlsFile, membersFile));
            && JsonName(membersFile) in after && membersFile in after
            && after[JsonName(membersFile)] == JsonText(RecordsJson(MemberInfos(urls, profile)))
            && (after[membersFile].CsvText? <==> Contains(membersFile, ".csv"))
  {
    var members := MemberInfos(urls, profile);
    RunWritesAll(urls, profile, urlsFile, membersFile);
    WrittenThree(files, (urlsFile, JsonText(UrlsJson(urls))), (membersFile, CsvFile(members)),
                 (JsonName(membersFile), JsonText(RecordsJson(members))));
    JsonNameSameExactlyWithoutCsv(membersFile);
  }

  /**
   * The entry script calls `run(group, "data/output.csv", "Ahmed")`: the URL
   * list goes, as JSON, to "data/output.csv", and the members JSON replaces
   * the members CSV at "Ahmed".
   */
  lemma EntryScriptOutputs(files: map<string, FileBody>, urls: seq<string>, profile: string -> ProfilePage)
    requires MemberInfos(urls, profile) != []
    ensures var after := Written(files, RunWrites(urls, profile, "data/output.csv", "Ahmed"));
            && "data/output.csv" in after && "Ahmed" in after
            && after["data/output.csv"] == JsonText(UrlsJson(urls))
            && after["Ahmed"] == JsonText(RecordsJson(MemberInfos(urls, profile)))
  {
    var members := MemberInfos(urls, profile);
    RunWritesAll(urls, profile, "data/output.csv", "Ahmed");
    assert JsonName("Ahmed") == "Ahmed";
    WrittenThree(files, ("data/output.csv", JsonText(UrlsJson(urls))), ("Ahmed", CsvFile(members)),
                 ("Ahmed", JsonText(RecordsJson(members))));
  }
}
