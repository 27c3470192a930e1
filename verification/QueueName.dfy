/** Tenant queue names (queue/control.go) and the SQL rule for the same names (http/handlers/handlers.go). */
module QueueName {
  import opened Common
  import opened Text

  predicate IsAlnum(c: char) { 'a' <= c <= 'z' || '0' <= c <= '9' }

  function SkipOthers(s: string): (r: string)
    ensures |r| <= |s| && (r == "" || IsAlnum(r[0]))
    ensures s != "" && !IsAlnum(s[0]) ==> |r| < |s|
  {
    if s == "" || IsAlnum(s[0]) then s else SkipOthers(s[1..])
  }

  /** Every run of characters outside [a-z0-9] becomes one dash. */
  function Dashed(s: string): string
    decreases |s|
  {
    if s == "" then "" else if IsAlnum(s[0]) then [s[0]] + Dashed(s[1..]) else "-" + Dashed(SkipOthers(s))
  }

  function TrimLeft(s: string): string { if s != "" && s[0] == '-' then TrimLeft(s[1..]) else s }

  function TrimRight(s: string): string { if s != "" && s[|s| - 1] == '-' then TrimRight(s[..|s| - 1]) else s }

  function Trim(s: string): string { TrimRight(TrimLeft(s)) }

  function Slug(raw: string): string {
    var s := Trim(Dashed(Lower(raw)));
    if s == "" then "tenant" else s
  }

  function NameForTenant(slug: string, channel: string): string { "tenant." + Slug(slug) + "." + Lower(channel) }

  /** The name the SQL statement of `ListQueueControls` inserts. */
  function SqlName(slug: string, channel: string): string { "tenant." + Dashed(Lower(slug)) + "." + channel }

  /** The maximal alphanumeric runs. */
  function Words(s: string): (words: seq<string>)
    ensures s != "" && IsAlnum(s[0]) ==> words != []
  {
    if s == "" then []
    else if !IsAlnum(s[0]) then Words(s[1..])
    else if |s| > 1 && IsAlnum(s[1]) then
      var rest := Words(s[1..]);
      [[s[0]] + rest[0]] + rest[1..]
    else [[s[0]]] + Words(s[1..])
  }

  predicate IsWord(w: string) { w != "" && forall c <- w :: IsAlnum(c) }

  lemma {:induction false} WordsAreWords(s: string)
    ensures forall w <- Words(s) :: IsWord(w)
  {
    if s != "" {
      WordsAreWords(s[1..]);
      var rest := Words(s[1..]);
      if IsAlnum(s[0]) && |s| > 1 && IsAlnum(s[1]) {
        assert rest[0] in rest && forall w <- rest[1..] :: w in rest;
      }
    }
  }

  function JoinWords(words: seq<string>): string { if words == [] then "" else Join(words, '-') }

  lemma {:induction false} WordsSkipOthers(s: string)
    ensures Words(SkipOthers(s)) == Words(s)
  {
    if s != "" && !IsAlnum(s[0]) {
      WordsSkipOthers(s[1..]);
    }
  }

  function Edge(dash: bool): string { if dash then "-" else "" }

  lemma {:induction false} NoWordsNoAlnum(s: string)
    ensures Words(s) == [] && s != "" ==> !IsAlnum(s[|s| - 1])
  {
    if |s| > 1 {
      NoWordsNoAlnum(s[1..]);
    }
  }

  lemma {:induction false} SkippedKeepsEnd(s: string)
    ensures SkipOthers(s) != "" ==> SkipOthers(s)[|SkipOthers(s)| - 1] == s[|s| - 1]
    ensures SkipOthers(s) == "" ==> Words(s) == []
  {
    if s != "" && !IsAlnum(s[0]) {
      SkippedKeepsEnd(s[1..]);
    }
  }

  /** The dash before the words, and the one after them. */
  function Opening(s: string): string { Edge(s != "" && !IsAlnum(s[0])) }

  function Closing(s: string): string { Edge(Words(s) != [] && !IsAlnum(s[|s| - 1])) }

  lemma JoinLongerWord(c: char, words: seq<string>)
    requires words != []
    ensures JoinWords([[c] + words[0]] + words[1..]) == [c] + JoinWords(words)
  {
    assert ([[c] + words[0]] + words[1..])[1..] == words[1..];
  }

  lemma JoinNewWord(c: char, words: seq<string>)
    ensures JoinWords([[c]] + words) == if words == [] then [c] else [c] + "-" + JoinWords(words)
  {
    assert ([[c]] + words)[1..] == words;
  }

  lemma WordsOfLonger(s: string)
    requires s != "" && IsAlnum(s[0])
    ensures var rest := Words(s[1..]);
            JoinWords(Words(s)) == [s[0]] + (if rest == [] then "" else Opening(s[1..]) + JoinWords(rest))
  {
    hide JoinWords;
    var rest := Words(s[1..]);
    if |s| > 1 && IsAlnum(s[1]) {
      assert Words(s) == [[s[0]] + rest[0]] + rest[1..];
      hide Words;
      JoinLongerWord(s[0], rest);
      assert Opening(s[1..]) + JoinWords(rest) == JoinWords(rest);
    } else {
      assert Words(s) == [[s[0]]] + rest;
      assert |s| == 1 ==> rest == [];
      hide Words;
      JoinNewWord(s[0], rest);
    }
  }

  lemma ClosingOfLonger(s: string)
    requires s != "" && IsAlnum(s[0])
    ensures Closing(s) == if Words(s[1..]) == [] then Opening(s[1..]) else Closing(s[1..])
    ensures Words(s[1..]) == [] ==> JoinWords(Words(s[1..])) == "" && Closing(s[1..]) == ""
  {
    NoWordsNoAlnum(s[1..]);
  }

  lemma Reassociate(c: string, none: bool, opening: string, joined: string, closing: string)
    requires none ==> joined == "" && closing == ""
    ensures c + (opening + joined + closing) ==
            "" + (c + if none then "" else opening + joined) + (if none then opening else closing)
  {
  }

  /** The dashed text is the words joined by single dashes, with a dash before them if the text starts
      with another character and one after them if it ends with one. */
  lemma {:induction false} DashedIsJoinedWords(s: string)
    ensures Dashed(s) == Opening(s) + JoinWords(Words(s)) + Closing(s)
    decreases |s|
  {
    if s == "" {
    } else if !IsAlnum(s[0]) {
      var t := SkipOthers(s);
      DashedIsJoinedWords(t);
      WordsSkipOthers(s);
      SkippedKeepsEnd(s);
      assert Opening(s) == "-" && Opening(t) == "" && Closing(s) == Closing(t);
      assert Dashed(s) == "-" + Dashed(t);
      hide Dashed, JoinWords, Words, Opening, Closing;
      Reassociate("-", false, "", JoinWords(Words(t)), Closing(t));
    } else {
      assert Dashed(s) == [s[0]] + Dashed(s[1..]);
      assert Opening(s) == "";
      hide Dashed, JoinWords, Words, Opening, Closing;
      DashedIsJoinedWords(s[1..]);
      WordsOfLonger(s);
      ClosingOfLonger(s);
      Reassociate([s[0]], Words(s[1..]) == [], Opening(s[1..]), JoinWords(Words(s[1..])), Closing(s[1..]));
    }
  }

  lemma {:induction false} JoinedEnds(words: seq<string>)
    requires words != [] && forall w <- words :: IsWord(w)
    ensures var s := Join(words, '-'); s != "" && IsAlnum(s[0]) && IsAlnum(s[|s| - 1])
    decreases |words|
  {
    assert words[0] in words && IsWord(words[0]);
    if |words| > 1 {
      JoinedEnds(words[1..]);
    }
  }

  /** Replacing and trimming amounts to joining the words. */
  lemma SlugIsJoinedWords(raw: string)
    ensures var words := Words(Lower(raw)); Slug(raw) == if words == [] then "tenant" else Join(words, '-')
  {
    var s := Lower(raw);
    var words := Words(s);
    DashedIsJoinedWords(s);
    WordsAreWords(s);
    if words == [] {
      assert Dashed(s) == "" || Dashed(s) == "-";
      assert Trim("-") == "";
    } else {
      JoinedEnds(words);
      TrimEdges(JoinWords(words), s != "" && !IsAlnum(s[0]), !IsAlnum(s[|s| - 1]));
    }
  }

  lemma TrimEdges(core: string, before: bool, after: bool)
    requires core != "" && core[0] != '-' && core[|core| - 1] != '-'
    ensures Trim(Edge(before) + core + Edge(after)) == core
  {
    var s, left := Edge(before) + core + Edge(after), core + Edge(after);
    assert left[0] == core[0];
    if before {
      assert s[1..] == left;
    } else {
      assert s == left;
    }
    assert TrimLeft(s) == left;
    if after {
      assert left[|left| - 1] == '-' && left[..|left| - 1] == core;
      assert TrimRight(core) == core;
    } else {
      assert left == core;
    }
  }

  /** Lower-case ASCII letters and digits, by code point. */
  predicate IsPlain(w: string) { w != "" && forall c <- w :: 97 <= c as int <= 122 || 48 <= c as int <= 57 }

  /** Runs of them joined by single dashes. */
  predicate IsSlug(s: string) { forall w <- Split(s, '-') :: IsPlain(w) }

  lemma PlainIsWord(w: string)
    ensures IsPlain(w) <==> IsWord(w)
  {
    forall c | c in w ensures (97 <= c as int <= 122 || 48 <= c as int <= 57) <==> IsAlnum(c) {
    }
  }

  lemma SlugOfWords(s: string)
    ensures IsSlug(s) <==> forall w <- Split(s, '-') :: IsWord(w)
  {
    hide IsPlain, IsWord, Split;
    forall w ensures IsPlain(w) <==> IsWord(w) {
      PlainIsWord(w);
    }
  }

  lemma {:induction false} WordsOfJoined(words: seq<string>)
    requires words != [] && forall w <- words :: IsWord(w)
    ensures Words(Join(words, '-')) == words
    decreases Join(words, '-')
  {
    var s := Join(words, '-');
    var w := words[0];
    assert IsWord(w) && w == [w[0]] + w[1..];
    if |w| > 1 {
      var shorter := words[0 := w[1..]];
      assert IsWord(shorter[0]) && shorter[1..] == words[1..];
      assert forall i | 1 <= i < |words| :: shorter[i] == words[i];
      assert s[1..] == Join(shorter, '-');
      WordsOfJoined(shorter);
      assert s[1] == w[1];
    } else if |words| > 1 {
      assert s[1..] == "-" + Join(words[1..], '-');
      assert s[1..][1..] == Join(words[1..], '-');
      WordsOfJoined(words[1..]);
      assert Words(s[1..]) == words[1..];
      assert words == [w] + words[1..] && w == [s[0]];
    } else {
      assert w == [s[0]] && s == w && s[1..] == "";
      assert words == [w];
    }
  }

  /** The slug of anything is alphanumeric runs joined by single dashes, and they are the runs of the
      lower-cased text in order, or the one word "tenant" where there are none. */
  lemma SlugHasTheWords(raw: string)
    ensures var words := Words(Lower(raw)); Split(Slug(raw), '-') == if words == [] then ["tenant"] else words
    ensures IsSlug(Slug(raw))
  {
    var words := Words(Lower(raw));
    SlugIsJoinedWords(raw);
    WordsAreWords(Lower(raw));
    var shown := if words == [] then ["tenant"] else words;
    assert Join(["tenant"], '-') == "tenant";
    assert IsWord("tenant");
    SplitJoin(shown, '-');
    SlugOfWords(Slug(raw));
  }

  lemma {:induction false} SlugCharacters(s: string)
    requires forall w <- Split(s, '-') :: forall c <- w :: IsAlnum(c)
    ensures forall c <- s :: IsAlnum(c) || c == '-'
  {
    if s != "" {
      var parts, rest := Split(s, '-'), Split(s[1..], '-');
      forall w, c | w in rest && c in w ensures IsAlnum(c) {
        if s[0] == '-' {
          assert parts == [""] + rest && w in parts;
        } else if w in rest[1..] {
          assert parts == [parts[0]] + rest[1..] && w in parts;
        } else {
          assert parts[0] in parts && parts[0] == [s[0]] + rest[0] && c in parts[0];
        }
      }
      assert s[0] != '-' ==> parts[0] in parts && s[0] in parts[0];
      SlugCharacters(s[1..]);
    }
  }

  /** Normalising leaves a text alone exactly when it is a slug already. */
  lemma SlugFixedIff(s: string)
    ensures Slug(s) == s <==> IsSlug(s)
  {
    SlugOfWords(s);
    if IsSlug(s) {
      SlugCharacters(s);
      assert forall i :: 0 <= i < |s| ==> s[i] in s;
      assert Lower(s) == s;
      SplitParts(s, '-');
      WordsOfJoined(Split(s, '-'));
      SlugIsJoinedWords(s);
    }
    SlugHasTheWords(s);
  }

  lemma SlugTwice(raw: string)
    ensures Slug(Slug(raw)) == Slug(raw)
  {
    SlugHasTheWords(raw);
    SlugFixedIff(Slug(raw));
  }

  lemma DotPlaces(a: string, x: string)
    requires '.' !in a
    ensures forall k :: 0 <= k <= |a| ==> ((a + "." + x)[k] == '.' <==> k == |a|)
  {
    assert forall k :: 0 <= k < |a| ==> (a + "." + x)[k] == a[k] && a[k] in a;
  }

  lemma FirstDotSplits(a: string, x: string, b: string, y: string)
    requires '.' !in a && '.' !in b && a + "." + x == b + "." + y
    ensures a == b && x == y
  {
    DotPlaces(a, x);
    DotPlaces(b, y);
    var s := a + "." + x;
    assert s[|a|] == '.' && s[|b|] == '.';
    assert (a + "." + x)[..|a|] == a && (b + "." + y)[..|a|] == b;
    assert (a + "." + x)[|a| + 1..] == x && (b + "." + y)[|a| + 1..] == y;
  }

  lemma SlugHasNoDot(raw: string)
    ensures '.' !in Slug(raw) && '.' !in Dashed(Lower(raw))
  {
    hide Slug;
    SlugHasTheWords(raw);
    SlugOfWords(Slug(raw));
    SlugCharacters(Slug(raw));
    DashedHasNoDot(Lower(raw));
  }

  lemma {:induction false} DashedHasNoDot(s: string)
    ensures '.' !in Dashed(s)
    decreases |s|
  {
    if s != "" {
      DashedHasNoDot(if IsAlnum(s[0]) then s[1..] else SkipOthers(s));
    }
  }

  lemma SamePrefix(prefix: string, a: string, b: string)
    ensures prefix + a == prefix + b <==> a == b
  {
    assert (prefix + a)[|prefix|..] == a && (prefix + b)[|prefix|..] == b;
  }

  lemma NamePieces(a: string, x: string, b: string, y: string)
    requires '.' !in a && '.' !in b
    ensures "tenant." + a + "." + x == "tenant." + b + "." + y <==> a == b && x == y
  {
    assert "tenant." + a + "." + x == "tenant." + (a + "." + x);
    assert "tenant." + b + "." + y == "tenant." + (b + "." + y);
    SamePrefix("tenant.", a + "." + x, b + "." + y);
    if a + "." + x == b + "." + y {
      FirstDotSplits(a, x, b, y);
    }
  }

  /** The name determines the slug and the channel up to case, and they determine it. */
  lemma NameDeterminesSlugAndChannel(slug1: string, channel1: string, slug2: string, channel2: string)
    ensures NameForTenant(slug1, channel1) == NameForTenant(slug2, channel2) <==>
            Slug(slug1) == Slug(slug2) && Lower(channel1) == Lower(channel2)
  {
    SlugHasNoDot(slug1);
    SlugHasNoDot(slug2);
    NamePieces(Slug(slug1), Lower(channel1), Slug(slug2), Lower(channel2));
  }

  /** A name reads as three parts with dots between them: the word `tenant`, the slug and the channel. */
  lemma NameParts(slug: string, channel: string)
    requires '.' !in channel
    ensures Split(NameForTenant(slug, channel), '.') == ["tenant", Slug(slug), Lower(channel)]
    ensures Split(SqlName(slug, channel), '.') == ["tenant", Dashed(Lower(slug)), channel]
  {
    hide Slug, Dashed, Split;
    SlugHasNoDot(slug);
    assert '.' !in Lower(channel) by {
      assert forall i | 0 <= i < |channel| :: channel[i] in channel && Lower(channel)[i] == LowerChar(channel[i]);
    }
    ThreeParts("tenant", Slug(slug), Lower(channel));
    ThreeParts("tenant", Dashed(Lower(slug)), channel);
    assert "tenant." == "tenant" + ".";
  }

  lemma ThreeParts(a: string, b: string, c: string)
    requires '.' !in a && '.' !in b && '.' !in c
    ensures Split(a + "." + b + "." + c, '.') == [a, b, c]
  {
    SplitJoin([a, b, c], '.');
    assert Join([b, c], '.') == b + "." + c;
    assert Join([a, b, c], '.') == a + "." + b + "." + c;
  }

  /** The SQL rule gives the same name exactly for these slugs and channels. */
  lemma SqlAgreesIff(slug: string, channel: string)
    ensures var s := Lower(slug);
            SqlName(slug, channel) == NameForTenant(slug, channel) <==>
            s != "" && IsAlnum(s[0]) && IsAlnum(s[|s| - 1]) && Lower(channel) == channel
  {
    SlugHasNoDot(slug);
    NamePieces(Dashed(Lower(slug)), channel, Slug(slug), Lower(channel));
    DashedIsSlugIff(slug);
  }

  lemma DashedIsSlugIff(slug: string)
    ensures var s := Lower(slug);
            Dashed(s) == Slug(slug) <==> s != "" && IsAlnum(s[0]) && IsAlnum(s[|s| - 1])
  {
    var s := Lower(slug);
    SlugIsJoinedWords(slug);
    DashedIsJoinedWords(s);
    WordsAreWords(s);
    if Words(s) == [] {
      NoWordsNoAlnum(s);
    } else {
      assert |Dashed(s)| == |Opening(s)| + |Slug(slug)| + |Closing(s)|;
    }
  }

  // The control rows: one per tenant and channel, the queue name unique over all rows.

  type Key = (string, string)

  ghost predicate Distinct(names: map<Key, string>) {
    forall j, k :: j in names && k in names && names[j] == names[k] ==> j == k
  }

  /** A row's name came from one of the two rules, on the slug the tenant had when the row was made. */
  predicate ByARule(k: Key, name: string, origin: string) {
    name == NameForTenant(origin, k.1) || name == SqlName(origin, k.1)
  }

  ghost predicate AllByARule(names: map<Key, string>, origins: map<Key, string>) {
    forall k <- names :: k in origins && ByARule(k, names[k], origins[k])
  }

  /** When the name of a row is the one a new row would get: for a name of the Go rule, when the slugs
      normalise alike and the channels are equal up to case; for a name of the SQL rule, when its untrimmed
      slug is already the normal form and its channel already lower case. */
  predicate Clashes(k: Key, name: string, origin: string, slug: string, channel: string) {
    if name == NameForTenant(origin, k.1) then Slug(origin) == Slug(slug) && Lower(k.1) == Lower(channel)
    else Dashed(Lower(origin)) == Slug(slug) && k.1 == Lower(channel)
  }

  /** The name for a new row is taken exactly when some row clashes with it, whichever rules, migrations and
      renamings made the rows. The uniqueness of the raw slugs does not rule it out. */
  lemma ClashIff(names: map<Key, string>, origins: map<Key, string>, slug: string, channel: string)
    requires AllByARule(names, origins)
    ensures NameForTenant(slug, channel) in names.Values <==>
            exists k <- names :: k in origins && Clashes(k, names[k], origins[k], slug, channel)
  {
    forall k <- names ensures names[k] == NameForTenant(slug, channel) <==> Clashes(k, names[k], origins[k], slug, channel) {
      RowClashesIff(k, names[k], origins[k], slug, channel);
    }
    hide Clashes, NameForTenant;
  }

  lemma RowClashesIff(k: Key, name: string, origin: string, slug: string, channel: string)
    requires ByARule(k, name, origin)
    ensures name == NameForTenant(slug, channel) <==> Clashes(k, name, origin, slug, channel)
  {
    hide Slug, Dashed;
    SlugHasNoDot(origin);
    SlugHasNoDot(slug);
    NamePieces(Slug(origin), Lower(k.1), Slug(slug), Lower(channel));
    NamePieces(Dashed(Lower(origin)), k.1, Slug(slug), Lower(channel));
  }

  /** The two rules do not see each other's names: the SQL name of slug "-a" leaves the name of slug "a" free,
      though both slugs normalise to the same. */
  lemma RulesMissEachOther()
    ensures Slug("-a") == Slug("a") && SqlName("-a", "sms") != NameForTenant("a", "sms")
  {
    assert Lower("-a") == "-a" && Lower("a") == "a" && Lower("sms") == "sms";
    SlugIsJoinedWords("-a");
    SlugIsJoinedWords("a");
    assert "-a"[1..] == "a" && "a"[1..] == "";
    assert Words("a") == ["a"] && Words("-a") == ["a"];
    SqlAgreesIff("-a", "sms");
    hide Slug, SqlName;
    assert NameForTenant("a", "sms") == NameForTenant("-a", "sms");
  }

  lemma RowAdded(names: map<Key, string>, origins: map<Key, string>, k: Key, origin: string)
    requires Distinct(names) && AllByARule(names, origins) && k !in names && NameForTenant(origin, k.1) !in names.Values
    ensures Distinct(names[k := NameForTenant(origin, k.1)])
    ensures AllByARule(names[k := NameForTenant(origin, k.1)], origins[k := origin])
  {
    hide NameForTenant, SqlName;
  }

  /** The rows the SQL statement would add, and the slugs they are named after. */
  function Missing(slugs: map<string, string>, names: map<Key, string>, tenantChannels: set<Key>): map<Key, string> {
    map k <- tenantChannels | k !in names && k.0 in slugs :: SqlName(slugs[k.0], k.1)
  }

  function MissingOrigins(slugs: map<string, string>, names: map<Key, string>, tenantChannels: set<Key>): map<Key, string> {
    map k <- tenantChannels | k !in names && k.0 in slugs :: slugs[k.0]
  }

  lemma MissingAreByARule(slugs: map<string, string>, names: map<Key, string>, origins: map<Key, string>, tenantChannels: set<Key>)
    requires AllByARule(names, origins)
    ensures AllByARule(names + Missing(slugs, names, tenantChannels), origins + MissingOrigins(slugs, names, tenantChannels))
  {
    hide NameForTenant, SqlName;
    var all, from := names + Missing(slugs, names, tenantChannels), origins + MissingOrigins(slugs, names, tenantChannels);
    forall k <- all ensures k in from && ByARule(k, all[k], from[k]) {
      if k in names {
        assert k !in Missing(slugs, names, tenantChannels) && k !in MissingOrigins(slugs, names, tenantChannels);
      }
    }
  }

  class Controls {
    var slugs: map<string, string>
    var names: map<Key, string>
    ghost var origins: map<Key, string>  // the slug each row was named after

    /** Names are unique and made by one of the rules, so `ClashIff` speaks of every reachable table. */
    ghost predicate Valid()
      reads this
    {
      Distinct(names) && AllByARule(names, origins)
    }

    constructor (slugs: map<string, string>)
      ensures this.slugs == slugs && names == map[] && Valid()
    {
      this.slugs, names, origins := slugs, map[], map[];
    }

    /** A tenant's slug can change; its rows keep their names. */
    method Rename(tenant: string, slug: string)
      requires Valid()
      modifies this`slugs
      ensures Valid() && slugs == old(slugs)[tenant := slug]
    {
      slugs := slugs[tenant := slug];
    }

    /** A tenant without a row, or a new row whose name is taken, is an error that changes nothing; a row
        that exists keeps its name, whichever rule gave it. */
    method EnsureControl(tenant: string, channel: string) returns (name: Option<string>)
      requires Valid()
      modifies this`names, this`origins
      ensures Valid()
      ensures tenant !in slugs ==> name == None
      ensures tenant in slugs && (tenant, channel) in old(names) ==> name == Some(old(names)[(tenant, channel)])
      ensures tenant in slugs && (tenant, channel) !in old(names) ==>
                var n := NameForTenant(slugs[tenant], channel);
                name == if n in old(names).Values then None else Some(n)
      ensures names == if name.Some? then old(names)[(tenant, channel) := name.value] else old(names)
      decreases (tenant, channel) !in names, (tenant, channel) in names
    {
      hide NameForTenant, Distinct, AllByARule;
      if tenant !in slugs {
        return None;
      }
      if (tenant, channel) !in names {
        var n := NameForTenant(slugs[tenant], channel);
        if n in names.Values {
          return None;
        }
        RowAdded(names, origins, (tenant, channel), slugs[tenant]);
        names, origins := names[(tenant, channel) := n], origins[(tenant, channel) := slugs[tenant]];
      }
      name := GetControl(tenant, channel);
    }

    /** Reads the row, making it first if there is none. */
    method GetControl(tenant: string, channel: string) returns (name: Option<string>)
      requires Valid()
      modifies this`names, this`origins
      ensures Valid()
      ensures (tenant, channel) in old(names) ==> name == Some(old(names)[(tenant, channel)])
      ensures (tenant, channel) !in old(names) && tenant !in slugs ==> name == None
      ensures (tenant, channel) !in old(names) && tenant in slugs ==>
                var n := NameForTenant(slugs[tenant], channel);
                name == if n in old(names).Values then None else Some(n)
      ensures names == if name.Some? then old(names)[(tenant, channel) := name.value] else old(names)
      decreases (tenant, channel) !in names, (tenant, channel) !in names
    {
      if (tenant, channel) in names {
        return Some(names[(tenant, channel)]);
      }
      name := EnsureControl(tenant, channel);
    }

    /** The insert of `ListQueueControls`: one statement, so a clash of names leaves no row at all. */
    method InsertMissing(tenantChannels: set<Key>)
      requires Valid()
      modifies this`names, this`origins
      ensures Valid()
      ensures forall k <- old(names) :: k in names && names[k] == old(names)[k]
      ensures var all := old(names) + Missing(slugs, old(names), tenantChannels);
              names == if Distinct(all) then all else old(names)
      ensures names != old(names) ==>
                forall k :: k in names <==> k in old(names) || (k in tenantChannels && k.0 in slugs)
      ensures forall k <- names | k !in old(names) :: k.0 in slugs && names[k] == SqlName(slugs[k.0], k.1)
    {
      hide AllByARule, SqlName;
      MissingAreByARule(slugs, names, origins, tenantChannels);
      var all := names + Missing(slugs, names, tenantChannels);
      if forall j, k :: j in all && k in all && all[j] == all[k] ==> j == k {
        origins := origins + MissingOrigins(slugs, names, tenantChannels);
        names := all;
      }
    }
  }
}
