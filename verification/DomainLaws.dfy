/** What makes the canonical domain canonical: one name, however it is spelled. */
module DomainLaws {
  import opened Prelude
  import opened Text
  import opened Domains

  // ---------------------------------------------------------------- strings

  lemma {:induction false} BeforeStops(s: string, t: string, stops: set<char>)
    requires (forall c :: c in s ==> c !in stops) && (t == "" || t[0] in stops)
    ensures Before(s + t, stops) == s
  {
    if s == "" {
      assert s + t == t;
    } else {
      assert (s + t)[0] == s[0] && (s + t)[1..] == s[1..] + t;
      BeforeStops(s[1..], t, stops);
    }
  }

  lemma {:induction false} AfterLastStops(s: string, t: string, c: char)
    requires c !in t && (s == "" || s[|s| - 1] == c)
    ensures AfterLast(s + t, c) == t
  {
    if t == "" {
      assert s + t == s;
    } else {
      assert (s + t)[|s + t| - 1] == t[|t| - 1] && (s + t)[..|s + t| - 1] == s + t[..|t| - 1];
      AfterLastStops(s, t[..|t| - 1], c);
    }
  }

  lemma {:induction false} WithoutAppends(s: string, t: string, cut: set<char>)
    ensures Without(s + t, cut) == Without(s, cut) + Without(t, cut)
  {
    if s == "" {
      assert s + t == t;
    } else {
      assert (s + t)[0] == s[0] && (s + t)[1..] == s[1..] + t;
      WithoutAppends(s[1..], t, cut);
    }
  }

  lemma {:induction false} WithoutKeeps(s: string, cut: set<char>)
    requires forall c :: c in s ==> c !in cut
    ensures Without(s, cut) == s
  {
    if s != "" {
      WithoutKeeps(s[1..], cut);
    }
  }

  lemma {:induction false} WithoutRemoves(s: string, cut: set<char>)
    ensures forall c :: c in Without(s, cut) ==> c in s && c !in cut
  {
    if s != "" {
      WithoutRemoves(s[1..], cut);
    }
  }

  lemma {:induction false} LStripAll(s: string, t: string, cut: set<char>)
    requires (forall c :: c in s ==> c in cut) && (t == "" || t[0] !in cut)
    ensures LStrip(s + t, cut) == t
  {
    if s == "" {
      assert s + t == t;
    } else {
      assert (s + t)[0] == s[0] && (s + t)[1..] == s[1..] + t;
      LStripAll(s[1..], t, cut);
    }
  }

  lemma {:induction false} RStripAll(s: string, t: string, cut: set<char>)
    requires (forall c :: c in t ==> c in cut) && (s == "" || s[|s| - 1] !in cut)
    ensures RStrip(s + t, cut) == s
  {
    if t == "" {
      assert s + t == s;
    } else {
      assert (s + t)[|s + t| - 1] == t[|t| - 1] && (s + t)[..|s + t| - 1] == s + t[..|t| - 1];
      RStripAll(s, t[..|t| - 1], cut);
    }
  }

  lemma StripFrame(front: string, s: string, end: string, cut: set<char>)
    requires (forall c :: c in front ==> c in cut) && (forall c :: c in end ==> c in cut)
    requires s != "" && s[0] !in cut && s[|s| - 1] !in cut
    ensures Strip(front + s + end, cut) == s
  {
    assert front + s + end == front + (s + end);
    LStripAll(front, s + end, cut);
    RStripAll(s, end, cut);
  }

  /** What stripping cuts off the end is all of the cut characters. */
  lemma {:induction false} RStripSplits(s: string, cut: set<char>) returns (rest: string)
    ensures s == RStrip(s, cut) + rest && forall c :: c in rest ==> c in cut
    ensures RStrip(s, cut) == "" || RStrip(s, cut)[|RStrip(s, cut)| - 1] !in cut
  {
    if s != "" && s[|s| - 1] in cut {
      rest := RStripSplits(s[..|s| - 1], cut);
      rest := rest + [s[|s| - 1]];
    } else {
      rest := "";
    }
  }

  lemma {:induction false} LStripKeeps(s: string, cut: set<char>)
    ensures forall c :: c in LStrip(s, cut) ==> c in s
  {
    if s != "" && s[0] in cut {
      LStripKeeps(s[1..], cut);
    }
  }

  lemma {:induction false} RStripKeeps(s: string, cut: set<char>)
    ensures forall c :: c in RStrip(s, cut) ==> c in s
  {
    if s != "" && s[|s| - 1] in cut {
      RStripKeeps(s[..|s| - 1], cut);
    }
  }

  lemma LowerAppends(s: string, t: string)
    ensures Lower(s + t) == Lower(s) + Lower(t)
  {
  }

  // ---------------------------------------------------------------- labels

  lemma LabelsCons(first: string, rest: string)
    requires '.' !in first
    ensures Labels(first + "." + rest) == [first] + Labels(rest)
  {
    assert first + "." + rest == first + ("." + rest);
    BeforeStops(first, "." + rest, {'.'});
    assert (first + "." + rest)[|first| + 1..] == rest;
  }

  lemma LabelsOne(s: string)
    requires '.' !in s
    ensures Labels(s) == [s]
  {
    BeforeStops(s, "", {'.'});
    assert s + "" == s;
  }

  lemma LabelsSplit(s: string)
    requires '.' in s
    ensures var first := Before(s, {'.'});
      |first| < |s| && '.' !in first && s == first + "." + s[|first| + 1..] && Labels(s) == [first] + Labels(s[|first| + 1..])
  {
  }

  lemma {:induction false} LabelsJoined(s: string)
    ensures Joined(Labels(s)) == s
    decreases |s|
  {
    if '.' in s {
      LabelsSplit(s);
      hide Labels, Before;
      var first := Before(s, {'.'});
      var rest := s[|first| + 1..];
      LabelsJoined(rest);
      JoinedCons(first, Labels(rest));
    } else {
      LabelsOne(s);
    }
  }

  lemma JoinedCons(first: string, rest: seq<string>)
    requires rest != []
    ensures Joined([first] + rest) == first + "." + Joined(rest)
  {
    assert ([first] + rest)[1..] == rest;
  }

  /** No label holds a dot, and every character of a label is one of the host. */
  lemma {:induction false} LabelsAreParts(s: string)
    ensures forall l :: l in Labels(s) ==> '.' !in l && forall c :: c in l ==> c in s
    ensures forall c :: c in s ==> c == '.' || exists l :: l in Labels(s) && c in l
    decreases |s|
  {
    var first := Before(s, {'.'});
    if |first| < |s| {
      var rest := s[|first| + 1..];
      LabelsAreParts(rest);
      assert s == first + "." + rest;
      assert Labels(s) == [first] + Labels(rest);
      assert first in Labels(s);
      forall c | c in s
        ensures c == '.' || exists l :: l in Labels(s) && c in l
      {
        assert c in first || c == '.' || c in rest;
        if c in rest && c != '.' {
          var l :| l in Labels(rest) && c in l;
          assert l in Labels(s);
        }
      }
    } else {
      assert Labels(s) == [s];
    }
  }

  // ---------------------------------------------------------------- the hosts that count

  /** Names whose labels are all plain, with at least two of them and a top level that is not a number. */
  predicate LabelsAreNames(labels: seq<string>) {
    |labels| >= 2 && (forall i :: 0 <= i < |labels| ==> IsLabel(labels[i])) && !AllDigits(labels[|labels| - 1])
  }

  /** A domain name as the design means it: two or more plain labels, the last not a number. */
  predicate IsDomainName(h: string) {
    |h| <= MAX_DOMAIN_LENGTH && LabelsAreNames(Labels(h))
  }

  /** A label in figures: 1 to 63 lower-case letters, digits and inner hyphens. */
  predicate IsPlainLabel(l: string) {
    1 <= |l| <= 63 && l[0] != '-' && l[|l| - 1] != '-'
    && forall i :: 0 <= i < |l| ==> 'a' <= l[i] <= 'z' || '0' <= l[i] <= '9' || l[i] == '-'
  }

  lemma LabelMeans(l: string)
    ensures IsLabel(l) <==> IsPlainLabel(l)
  {
    if IsLabel(l) {
      assert forall i :: 0 <= i < |l| ==> l[i] in l;
    }
  }

  lemma DigitsMean(l: string)
    requires l != ""
    ensures AllDigits(l) <==> forall i :: 0 <= i < |l| ==> '0' <= l[i] <= '9'
  {
    if AllDigits(l) {
      assert forall i :: 0 <= i < |l| ==> l[i] in l;
    }
  }

  /** A domain name in figures: up to 253 characters, two or more such labels, and a character that is no digit in the last. */
  lemma DomainNameMeans(h: string)
    ensures
      var labels := Labels(h);
      var last := labels[|labels| - 1];
      IsDomainName(h)
      <==> |h| <= 253 && |labels| >= 2 && (forall i :: 0 <= i < |labels| ==> IsPlainLabel(labels[i]))
           && exists i :: 0 <= i < |last| && !('0' <= last[i] <= '9')
  {
    hide Labels, IsLabel, AllDigits, IsPlainLabel;
    var labels := Labels(h);
    forall i | 0 <= i < |labels|
      ensures IsLabel(labels[i]) <==> IsPlainLabel(labels[i])
    {
      LabelMeans(labels[i]);
    }
    if labels[|labels| - 1] != "" {
      DigitsMean(labels[|labels| - 1]);
    } else {
      NothingIsNoLabel();
    }
  }

  lemma NothingIsNoLabel()
    ensures !IsLabel("")
  {
  }

  predicate Plain(c: char) {
    IsAlnum(c) || c == '-' || c == '.'
  }

  lemma DomainNameIsPlain(h: string)
    requires IsDomainName(h)
    ensures h != "" && Plain(h[0]) && h[0] != '.' && h[|h| - 1] != '.'
    ensures forall c :: c in h ==> Plain(c)
  {
    LabelsAreParts(h);
    var first := Before(h, {'.'});
    assert IsLabel(Labels(h)[0]) && Labels(h)[0] == first;
    assert h[0] == first[0];
    LastLabelEnds(h);
  }

  lemma {:induction false} LastLabelEnds(h: string)
    ensures var last := Labels(h)[|Labels(h)| - 1]; |last| <= |h| && h[|h| - |last|..] == last
    decreases |h|
  {
    if '.' in h {
      LabelsSplit(h);
      hide Labels, Before;
      LastLabelEnds(h[|Before(h, {'.'})| + 1..]);
    } else {
      LabelsOne(h);
    }
  }

  /** Without a newline, what the check accepts is exactly a domain name. */
  lemma PassingIsDomainName(h: string)
    requires HostError(h).None? && '\n' !in h
    ensures IsDomainName(h)
  {
    LabelsAreParts(h);
    var labels := Labels(h);
    forall i | 0 <= i < |labels|
      ensures IsLabel(labels[i])
    {
      var l := labels[i];
      assert l in labels && LabelPasses(l) && l != "";
      assert l[|l| - 1] in l && l[|l| - 1] != '\n';
    }
  }

  // ---------------------------------------------------------------- www

  function Wwws(k: nat): string {
    if k == 0 then "" else "www." + Wwws(k - 1)
  }

  lemma WwwLabel(h: string)
    ensures Labels("www." + h) == ["www"] + Labels(h)
  {
    assert "www" + "." + h == "www." + h;
    LabelsCons("www", h);
  }

  lemma WwwIsLabel()
    ensures IsLabel("www") && '.' !in "www"
  {
  }

  lemma OneMoreName(labels: seq<string>)
    requires LabelsAreNames(labels)
    ensures LabelsAreNames(["www"] + labels)
  {
    WwwIsLabel();
    hide IsLabel, AllDigits;
  }

  lemma WwwsUnfold(k: nat, h: string)
    requires k > 0
    ensures Wwws(k) + h == "www." + (Wwws(k - 1) + h) && |Wwws(k)| == 4 + |Wwws(k - 1)|
  {
  }

  lemma {:induction false} WwwsLabels(k: nat, h: string)
    requires LabelsAreNames(Labels(h))
    ensures LabelsAreNames(Labels(Wwws(k) + h)) && |Wwws(k)| == 4 * k
  {
    hide LabelsAreNames, Labels;
    if k == 0 {
      assert Wwws(0) + h == h;
    } else {
      WwwsUnfold(k, h);
      hide Wwws;
      WwwsLabels(k - 1, h);
      WwwLabel(Wwws(k - 1) + h);
      OneMoreName(Labels(Wwws(k - 1) + h));
    }
  }

  /** A host with `www.` in front passes the check exactly when it is still short enough. */
  lemma WwwsPass(k: nat, h: string)
    requires IsDomainName(h)
    ensures HostError(Wwws(k) + h) == if 4 * k + |h| <= MAX_DOMAIN_LENGTH then None else Some(TooLong)
  {
    WwwsLabels(k, h);
    hide IsLabel, Labels, AllDigits, Wwws;
  }

  lemma {:induction false} WwwsStripped(k: nat, h: string)
    requires LabelsAreNames(Labels(h))
    ensures StripWww(Wwws(k) + h) == StripWww(h)
  {
    hide IsLabel, AllDigits, Labels;
    if k == 0 {
      assert Wwws(0) + h == h;
    } else {
      WwwsUnfold(k, h);
      hide Wwws, StripWww;
      WwwsLabels(k - 1, h);
      WwwsStripped(k - 1, h);
      WwwStripped(Wwws(k - 1) + h);
    }
  }

  lemma WwwStripped(rest: string)
    requires |Labels(rest)| >= 2
    ensures StripWww("www." + rest) == StripWww(rest)
  {
    assert ("www." + rest)[..4] == "www." && ("www." + rest)[4..] == rest;
  }

  lemma OneNameFewer(labels: seq<string>)
    requires LabelsAreNames(["www"] + labels) && |labels| >= 2
    ensures LabelsAreNames(labels)
  {
    hide IsLabel, AllDigits;
    var all := ["www"] + labels;
    assert forall i :: 0 <= i < |labels| ==> labels[i] == all[i + 1];
    assert labels[|labels| - 1] == all[|all| - 1];
  }

  lemma WwwTaken(h: string)
    requires StartsWithWww(h)
    ensures h == "www." + h[4..] && Labels(h) == ["www"] + Labels(h[4..])
  {
    assert h == "www." + h[4..];
    WwwLabel(h[4..]);
  }

  /** Stripping `www.` keeps a domain name, and leaves nothing more to strip. */
  lemma {:induction false} StripWwwKeeps(h: string)
    requires IsDomainName(h)
    ensures IsDomainName(StripWww(h)) && StripWww(StripWww(h)) == StripWww(h)
    ensures StartsWithWww(StripWww(h)) ==> |Labels(StripWww(h))| == 2
    decreases |h|
  {
    hide Labels, LabelsAreNames;
    NameHasLabels(h);
    if StartsWithWww(h) {
      WwwTaken(h);
      if |Labels(h[4..])| >= 2 {
        OneNameFewer(Labels(h[4..]));
        StripWwwKeeps(h[4..]);
      }
    }
  }

  lemma NameHasLabels(h: string)
    requires LabelsAreNames(Labels(h))
    ensures |Labels(h)| >= 2
  {
    hide Labels, IsLabel, AllDigits;
  }

  // ---------------------------------------------------------------- spellings of a name

  datatype Form = Bare | Slashes | Scheme(scheme: string)

  /** The parts of a text that names a host: `text` is the host in any case, with any `www.` in front. */
  datatype Spelling = Spelling(
    front: string, form: Form, user: string, text: string, dots: nat, port: string, tail: string, end: string)

  function Dots(n: nat): (s: string)
    ensures |s| == n && forall c :: c in s ==> c == '.'
  {
    if n == 0 then "" else Dots(n - 1) + "."
  }

  function Prefix(f: Form): string {
    match f
    case Bare => ""
    case Slashes => "//"
    case Scheme(s) => s + "://"
  }

  function Authority(sp: Spelling): string {
    sp.user + (sp.text + Dots(sp.dots) + sp.port)
  }

  function Core(sp: Spelling): string {
    Prefix(sp.form) + (Authority(sp) + sp.tail)
  }

  function Render(sp: Spelling): string {
    sp.front + Core(sp) + sp.end
  }

  predicate InAuthority(c: char) {
    c < '\U{80}' && c !in SPACES && c !in "/?#[]"
  }

  predicate AllSpaces(s: string) {
    forall c :: c in s ==> c in SPACES
  }

  predicate IsTail(tail: string) {
    IsAscii(tail) && (tail != "" ==> tail[0] in "/?#" && tail[|tail| - 1] !in SPACES)
  }

  /** The text names `h`: userinfo, port, path, scheme and surrounding space may be anything. */
  predicate Names(sp: Spelling, k: nat, h: string) {
    && AllSpaces(sp.front) && AllSpaces(sp.end)
    && (sp.form.Scheme? ==> IsScheme(sp.form.scheme))
    && (forall c :: c in sp.user ==> InAuthority(c)) && (sp.user != "" ==> sp.user[|sp.user| - 1] == '@')
    && Lower(sp.text) == Wwws(k) + h
    && (forall c :: c in sp.port ==> InAuthority(c)) && (sp.port != "" ==> sp.port[0] == ':' && '@' !in sp.port)
    && IsTail(sp.tail)
  }

  /** A spelling the canonical form is meant for: a bare one holds no `//`. */
  predicate IsSpelling(sp: Spelling, k: nat, h: string) {
    Names(sp, k, h) && (sp.form.Bare? ==> !HasSlashes(Core(sp)))
  }

  lemma NameCharacter(c: char)
    requires Plain(LowerChar(c))
    ensures InAuthority(c) && c != '@' && c != ':' && c != '%'
  {
  }

  lemma {:induction false} WwwsArePlain(k: nat)
    ensures forall c :: c in Wwws(k) ==> Plain(c)
  {
    if k > 0 {
      WwwsArePlain(k - 1);
    }
  }

  /** The host part of a spelling is made of name characters only. */
  lemma NameCharacters(sp: Spelling, k: nat, h: string)
    requires Names(sp, k, h) && IsDomainName(h)
    ensures forall c :: c in sp.text + Dots(sp.dots) ==> InAuthority(c) && c != '@' && c != ':' && c != '%'
    ensures sp.text != ""
  {
    DomainNameIsPlain(h);
    WwwsArePlain(k);
    forall c | c in sp.text + Dots(sp.dots)
      ensures InAuthority(c) && c != '@' && c != ':' && c != '%'
    {
      if c in sp.text {
        var i :| 0 <= i < |sp.text| && sp.text[i] == c;
        assert Lower(sp.text)[i] in Wwws(k) + h;
        NameCharacter(c);
      }
    }
  }

  lemma AuthorityCharacters(sp: Spelling, k: nat, h: string)
    requires Names(sp, k, h) && IsDomainName(h)
    ensures Authority(sp) != "" && forall c :: c in Authority(sp) ==> InAuthority(c)
  {
    NameCharacters(sp, k, h);
    hide InAuthority, IsDomainName;
    forall c | c in Authority(sp)
      ensures InAuthority(c)
    {
      assert c in sp.user || c in sp.text + Dots(sp.dots) || c in sp.port;
    }
  }

  predicate Visible(s: string) {
    s != "" ==> s[0] !in SPACES && s[|s| - 1] !in SPACES
  }

  lemma SchemeIsVisible(scheme: string)
    requires IsScheme(scheme)
    ensures scheme[0] > ' ' && scheme[0] !in SPACES && ':' !in scheme
    ensures forall c :: c in scheme ==> c !in UNSAFE && c < '\U{80}'
  {
  }

  /** A prefix that is visible, if there is one. */
  lemma PrefixIsVisible(f: Form)
    requires f.Scheme? ==> IsScheme(f.scheme)
    ensures Prefix(f) != "" ==> Prefix(f)[0] !in SPACES
  {
    if f.Scheme? {
      SchemeIsVisible(f.scheme);
    }
  }

  lemma CoreIsStripped(sp: Spelling, k: nat, h: string)
    requires Names(sp, k, h) && IsDomainName(h)
    ensures Strip(Render(sp), SPACES) == Core(sp) && Core(sp) != ""
  {
    hide IsDomainName, IsScheme, Authority, Dots, Wwws, Prefix, Strip, Lower, HasSlashes, IsAscii;
    AuthorityCharacters(sp, k, h);
    PrefixIsVisible(sp.form);
    var prefix, auth := Prefix(sp.form), Authority(sp);
    assert auth[0] in auth && auth[|auth| - 1] in auth;
    var core := Core(sp);
    assert core[0] == if prefix != "" then prefix[0] else auth[0];
    assert core[|core| - 1] == if sp.tail != "" then sp.tail[|sp.tail| - 1] else auth[|auth| - 1];
    StripFrame(sp.front, core, sp.end, SPACES);
  }

  lemma SlashesLead(rest: string)
    ensures HasSlashes("//" + rest) && FromSlashes("//" + rest) == "//" + rest && !StartsWithScheme("//" + rest)
  {
    assert SlashesAt("//" + rest, 0);
    assert ("//" + rest)[0] == '/';
  }

  lemma SchemeLeads(scheme: string, rest: string)
    requires IsScheme(scheme)
    ensures var url := scheme + "://" + rest;
      HasSlashes(url) && StartsWithScheme(url) && Before(url, {':'}) == scheme && url[|scheme| + 1..] == "//" + rest
  {
    var url := scheme + "://" + rest;
    SchemeIsVisible(scheme);
    BeforeStops(scheme, "://" + rest, {':'});
    assert url == scheme + ("://" + rest);
    assert SlashesAt(url, |scheme| + 1);
  }

  /** The URL a spelling is parsed as. */
  function Parsed(sp: Spelling): string {
    if sp.form.Scheme? then sp.form.scheme + "://" + (Authority(sp) + sp.tail) else "//" + (Authority(sp) + sp.tail)
  }

  lemma GetsAuthority(sp: Spelling, k: nat, h: string)
    requires IsSpelling(sp, k, h) && IsDomainName(h)
    ensures WithAuthority(Render(sp)) == Ok(Parsed(sp))
  {
    CoreIsStripped(sp, k, h);
    var rest := Authority(sp) + sp.tail;
    hide Strip, Render, Authority, StartsWithScheme, HasSlashes;
    match sp.form {
      case Bare => assert Core(sp) == rest;
      case Slashes => SlashesLead(rest);
      case Scheme(scheme) => SchemeLeads(scheme, rest);
    }
  }

  lemma NetlocOf(scheme: string, auth: string, tail: string)
    requires (forall c :: c in auth ==> InAuthority(c)) && (tail != "" ==> tail[0] in "/?#")
    ensures SplitRest(scheme, "//" + (auth + tail)).netloc == auth
  {
    BeforeStops(auth, tail, {'/', '?', '#'});
    assert ("//" + (auth + tail))[2..] == auth + tail;
  }

  lemma CleanTail(tail: string)
    requires tail != "" ==> tail[0] in "/?#"
    ensures Without(tail, UNSAFE) != "" ==> Without(tail, UNSAFE)[0] in "/?#"
  {
  }

  lemma CleanAuthority(auth: string, tail: string)
    requires forall c :: c in auth ==> InAuthority(c)
    ensures Without("//" + (auth + tail), UNSAFE) == "//" + (auth + Without(tail, UNSAFE))
  {
    WithoutAppends("//", auth + tail, UNSAFE);
    WithoutAppends(auth, tail, UNSAFE);
    WithoutKeeps("//", UNSAFE);
    WithoutKeeps(auth, UNSAFE);
  }

  lemma SplitsBare(auth: string, tail: string)
    requires (forall c :: c in auth ==> InAuthority(c)) && (tail != "" ==> tail[0] in "/?#")
    ensures SplitUrl("//" + (auth + tail)).netloc == auth
  {
    var url := "//" + (auth + tail);
    assert url[0] == '/' && LStripControls(url) == url;
    CleanAuthority(auth, tail);
    CleanTail(tail);
    SlashesLead(auth + Without(tail, UNSAFE));
    NetlocOf("", auth, Without(tail, UNSAFE));
    hide Without, StartsWithScheme, SplitRest, InAuthority, HasSlashes, FromSlashes;
  }

  lemma SchemeText(scheme: string, rest: string)
    ensures scheme + "://" + rest == (scheme + ":") + ("//" + rest)
  {
  }

  lemma CleanUrl(scheme: string, auth: string, tail: string)
    requires IsScheme(scheme) && forall c :: c in auth ==> InAuthority(c)
    ensures Without(scheme + "://" + (auth + tail), UNSAFE) == scheme + "://" + (auth + Without(tail, UNSAFE))
  {
    SchemeIsVisible(scheme);
    hide Without, IsScheme, InAuthority;
    CleanAuthority(auth, tail);
    WithoutKeeps(scheme + ":", UNSAFE);
    WithoutAppends(scheme + ":", "//" + (auth + tail), UNSAFE);
    SchemeText(scheme, auth + tail);
    SchemeText(scheme, auth + Without(tail, UNSAFE));
  }

  lemma SplitsWithScheme(scheme: string, auth: string, tail: string)
    requires IsScheme(scheme)
    requires (forall c :: c in auth ==> InAuthority(c)) && (tail != "" ==> tail[0] in "/?#")
    ensures SplitUrl(scheme + "://" + (auth + tail)).netloc == auth
  {
    var url := scheme + "://" + (auth + tail);
    SchemeIsVisible(scheme);
    assert url[0] == scheme[0] && LStripControls(url) == url;
    CleanUrl(scheme, auth, tail);
    CleanTail(tail);
    SchemeLeads(scheme, auth + Without(tail, UNSAFE));
    NetlocOf(Lower(scheme), auth, Without(tail, UNSAFE));
    hide Without, StartsWithScheme, SplitRest, InAuthority, HasSlashes, IsScheme, LStripControls, Before, Lower;
  }

  // ---------------------------------------------------------------- the host of a spelling

  lemma HostOf(user: string, name: string, port: string)
    requires user != "" ==> user[|user| - 1] == '@'
    requires forall c :: c in name ==> c != '@' && c != ':' && c != '%'
    requires port != "" ==> port[0] == ':' && '@' !in port
    ensures Host(user + (name + port)) == Lower(name)
  {
    AfterLastStops(user, name + port, '@');
    BeforeStops(name, port, {':'});
    assert name + "" == name;
    BeforeStops(name, "", {'%'});
    assert Lower(name) + name[|name|..] == Lower(name);
  }

  lemma LowerDots(n: nat)
    ensures Lower(Dots(n)) == Dots(n)
  {
  }

  lemma PlainIsLow(s: string)
    requires forall c :: c in s ==> Plain(c)
    ensures Lower(s) == s
  {
    forall i | 0 <= i < |s|
      ensures LowerChar(s[i]) == s[i]
    {
      assert Plain(s[i]);
    }
  }

  lemma NotSpace(c: char)
    requires Plain(c)
    ensures c !in SPACES
  {
  }

  lemma StripsToItself(s: string)
    requires s != "" && Visible(s)
    ensures Strip(s, SPACES) == s
  {
    StripFrame("", s, "", SPACES);
    assert "" + s + "" == s;
  }

  lemma DotsStripped(name: string, n: nat)
    requires name != "" && name[0] != '.' && name[|name| - 1] != '.'
    ensures Strip(name + Dots(n), {'.'}) == name
  {
    hide Strip, Dots;
    assert "" + name + Dots(n) == name + Dots(n);
    StripFrame("", name, Dots(n), {'.'});
  }

  lemma DottedIsVisible(name: string, n: nat)
    requires name != "" && forall c :: c in name ==> Plain(c)
    ensures name + Dots(n) != "" && Visible(name + Dots(n))
  {
    hide Plain, Dots;
    assert name[0] in name && name[|name| - 1] in name;
    NotSpace(name[0]);
    NotSpace(name[|name| - 1]);
    DotIsPlain();
    NotSpace('.');
    var spelled := name + Dots(n);
    if n > 0 {
      assert Dots(n)[n - 1] in Dots(n);
    }
    assert spelled[|spelled| - 1] == if n > 0 then '.' else name[|name| - 1];
  }

  lemma DotIsPlain()
    ensures Plain('.')
  {
  }

  lemma FoldsName(name: string, n: nat)
    requires name != "" && (forall c :: c in name ==> Plain(c)) && name[0] != '.' && name[|name| - 1] != '.'
    ensures Folded(name + Dots(n)) == name
  {
    hide Lower, Plain, Strip, Dots, Visible;
    PlainIsLow(name);
    DottedIsVisible(name, n);
    StripsToItself(name + Dots(n));
    DotsStripped(name, n);
  }

  /** Trailing dots go, and nothing else of the name does. */
  lemma FoldsTo(k: nat, h: string, n: nat)
    requires IsDomainName(h)
    ensures Folded(Wwws(k) + h + Dots(n)) == Wwws(k) + h
  {
    DomainNameIsPlain(h);
    WwwsArePlain(k);
    var name := Wwws(k) + h;
    assert name[0] == if k > 0 then 'w' else h[0];
    assert name[|name| - 1] == h[|h| - 1];
    hide IsDomainName, Wwws, Folded, Dots;
    FoldsName(name, n);
  }

  lemma {:induction false} TrailingDot(s: string)
    ensures Labels(s + ".") == Labels(s) + [""]
    decreases |s|
  {
    hide Labels, Before;
    if '.' in s {
      LabelsSplit(s);
      var first := Before(s, {'.'});
      var rest := s[|first| + 1..];
      TrailingDot(rest);
      assert s + "." == first + "." + (rest + ".");
      LabelsCons(first, rest + ".");
    } else {
      LabelsCons(s, "");
      assert s + "." + "" == s + ".";
      LabelsOne(s);
      LabelsOne("");
    }
  }

  lemma LastLabelWithDots(s: string, n: nat)
    ensures n > 0 ==> Labels(s + Dots(n))[|Labels(s + Dots(n))| - 1] == ""
    ensures n == 0 ==> s + Dots(n) == s
  {
    if n > 0 {
      assert s + Dots(n) == (s + Dots(n - 1)) + ".";
      TrailingDot(s + Dots(n - 1));
    }
  }

  /** A domain name is no IPv4 address, with or without dots after it. */
  lemma NoAddress(k: nat, h: string, n: nat)
    requires IsDomainName(h)
    ensures !IsIpv4(Wwws(k) + h + Dots(n))
  {
    WwwsLabels(k, h);
    LastLabelWithDots(Wwws(k) + h, n);
    hide Labels, Wwws, IsLabel;
  }

  lemma CheckedHostOf(sp: Spelling, k: nat, h: string)
    requires Names(sp, k, h) && IsDomainName(h)
    ensures CheckedHost(Authority(sp)) == if 4 * k + |h| <= MAX_DOMAIN_LENGTH then Ok(Wwws(k) + h) else Err(TooLong)
  {
    NameCharacters(sp, k, h);
    AuthorityCharacters(sp, k, h);
    var name := sp.text + Dots(sp.dots);
    HostOf(sp.user, name, sp.port);
    LowerAppends(sp.text, Dots(sp.dots));
    LowerDots(sp.dots);
    DomainNameIsPlain(h);
    FoldsTo(k, h, sp.dots);
    NoAddress(k, h, sp.dots);
    WwwsPass(k, h);
    assert '[' !in Authority(sp) && ']' !in Authority(sp);
    hide Folded, IsIpv4, HostError, IsDomainName, Host, Wwws, Lower, Names;
  }

  lemma RenderIsAscii(sp: Spelling, k: nat, h: string)
    requires Names(sp, k, h) && IsDomainName(h)
    ensures IsAscii(Render(sp))
  {
    AuthorityCharacters(sp, k, h);
    if sp.form.Scheme? {
      SchemeIsVisible(sp.form.scheme);
    }
    hide IsDomainName, Authority, Wwws, Lower, IsScheme;
    forall c | c in Render(sp)
      ensures c < '\U{80}'
    {
      assert c in sp.front || c in Prefix(sp.form) || c in Authority(sp) || c in sp.tail || c in sp.end;
    }
  }

  /**
   * One name, however it is spelled: any case, `www.`, trailing dots, userinfo, port, scheme, path and
   * surrounding space lead to the same canonical domain, unless the `www.` makes the host too long.
   */
  lemma EverySpellingIsCanonical(sp: Spelling, k: nat, h: string)
    requires IsSpelling(sp, k, h) && IsDomainName(h)
    ensures Normalize(Render(sp)) == if 4 * k + |h| <= MAX_DOMAIN_LENGTH then Normalize(h) else Err(TooLong)
    ensures Normalize(h) == Ok(StripWww(h))
  {
    NormalizesTo(sp, k, h);
    PlainSpelling(h);
    ItselfRenders(h);
    hide Normalize, IsSpelling, IsDomainName, Render;
    NormalizesTo(Itself(h), 0, h);
  }

  lemma NormalizesTo(sp: Spelling, k: nat, h: string)
    requires IsSpelling(sp, k, h) && IsDomainName(h)
    ensures Normalize(Render(sp)) == if 4 * k + |h| <= MAX_DOMAIN_LENGTH then Ok(StripWww(h)) else Err(TooLong)
  {
    RenderIsAscii(sp, k, h);
    GetsAuthority(sp, k, h);
    AuthorityCharacters(sp, k, h);
    if sp.form.Scheme? {
      SplitsWithScheme(sp.form.scheme, Authority(sp), sp.tail);
    } else {
      SplitsBare(Authority(sp), sp.tail);
    }
    CheckedHostOf(sp, k, h);
    WwwsStripped(k, h);
    hide Render, Authority, SplitUrl, CheckedHost, WithAuthority, IsAscii, Wwws, StripWww, IsSpelling, IsDomainName;
  }

  lemma NameHasNoSlashes(h: string)
    requires forall c :: c in h ==> Plain(c)
    ensures !HasSlashes(h)
  {
    forall i | 0 <= i < |h|
      ensures !SlashesAt(h, i)
    {
      assert h[i] in h;
    }
  }

  function Itself(h: string): Spelling {
    Spelling("", Bare, "", h, 0, "", "", "")
  }

  lemma ItselfRenders(h: string)
    ensures Core(Itself(h)) == h && Render(Itself(h)) == h
  {
    var sp := Itself(h);
    assert Authority(sp) == h;
    assert Core(sp) == h;
  }

  lemma NoWww(h: string)
    ensures Wwws(0) + h == h
  {
  }

  /** A domain name is a spelling of itself. */
  lemma PlainSpelling(h: string)
    requires IsDomainName(h)
    ensures IsSpelling(Itself(h), 0, h)
  {
    hide IsDomainName, Plain, Lower, HasSlashes, InAuthority, IsScheme, Core, Render, Wwws;
    DomainNameIsPlain(h);
    PlainIsLow(h);
    NameHasNoSlashes(h);
    ItselfRenders(h);
    NoWww(h);
  }

  /** Two spellings denote the same site exactly when the names they spell have the same canonical form. */
  lemma SameSiteExactlyWhen(left: Spelling, j: nat, g: string, right: Spelling, k: nat, h: string)
    requires IsSpelling(left, j, g) && IsDomainName(g) && 4 * j + |g| <= MAX_DOMAIN_LENGTH
    requires IsSpelling(right, k, h) && IsDomainName(h) && 4 * k + |h| <= MAX_DOMAIN_LENGTH
    ensures SameSite(Render(left), Render(right)) <==> StripWww(g) == StripWww(h)
  {
    hide Normalize, Render, IsSpelling, IsDomainName, StripWww;
    EverySpellingIsCanonical(left, j, g);
    EverySpellingIsCanonical(right, k, h);
  }

  // ---------------------------------------------------------------- what comes out

  lemma {:induction false} AfterLastKeeps(s: string, c: char)
    ensures forall x :: x in AfterLast(s, c) ==> x in s
  {
    if s != "" && s[|s| - 1] != c {
      AfterLastKeeps(s[..|s| - 1], c);
    }
  }

  lemma {:induction false} LStripControlsKeeps(s: string)
    ensures forall c :: c in LStripControls(s) ==> c in s
  {
    if s != "" && s[0] <= ' ' {
      LStripControlsKeeps(s[1..]);
    }
  }

  lemma SplitTailKeeps(scheme: string, netloc: string, tail: string)
    requires netloc != "" ==> tail == "" || tail[0] in {'/', '?', '#'}
    ensures var p := SplitTail(scheme, netloc, tail);
      p.netloc == netloc && (forall c :: c in p.path || c in p.query ==> c in tail)
      && (netloc != "" ==> p.path == "" || p.path[0] == '/')
  {
  }

  lemma SplitRestKeeps(scheme: string, rest: string)
    ensures var p := SplitRest(scheme, rest);
      (forall c :: c in p.netloc || c in p.path || c in p.query ==> c in rest)
      && (p.netloc != "" ==> p.path == "" || p.path[0] == '/')
  {
    hide SplitTail;
    if |rest| >= 2 && rest[0] == '/' && rest[1] == '/' {
      var netloc := Before(rest[2..], {'/', '?', '#'});
      SplitTailKeeps(scheme, netloc, rest[2 + |netloc|..]);
    } else {
      SplitTailKeeps(scheme, "", rest);
    }
  }

  /** The parts of a split URL are made of its characters, with tabs and line ends gone. */
  lemma SplitKeeps(url: string)
    ensures var p := SplitUrl(url);
      (forall c :: c in p.netloc || c in p.path || c in p.query ==> c in url && c !in UNSAFE)
      && (p.netloc != "" ==> p.path == "" || p.path[0] == '/')
  {
    hide SplitRest, StartsWithScheme, LStripControls, Without;
    var t := LStripControls(url);
    LStripControlsKeeps(url);
    WithoutRemoves(t, UNSAFE);
    var s := Without(t, UNSAFE);
    var scheme := Before(s, {':'});
    SplitRestKeeps("", s);
    if StartsWithScheme(s) {
      SchemeEnds(s);
      SplitRestKeeps(Lower(scheme), s[|scheme| + 1..]);
    }
  }

  lemma SchemeEnds(s: string)
    requires StartsWithScheme(s)
    ensures |Before(s, {':'})| < |s|
  {
  }

  lemma HostKeeps(netloc: string)
    requires '\n' !in netloc
    ensures '\n' !in Folded(Host(netloc))
  {
    var info := HostInfo(netloc);
    AfterLastKeeps(netloc, '@');
    var host := Host(netloc);
    assert '\n' !in host;
    LStripKeeps(host, SPACES);
    RStripKeeps(LStrip(host, SPACES), SPACES);
    var bare := Strip(host, SPACES);
    LStripKeeps(bare, {'.'});
    RStripKeeps(LStrip(bare, {'.'}), {'.'});
    hide Host, HostInfo, AfterLast;
  }

  lemma CheckedHostIsName(url: string)
    requires CheckedHost(SplitUrl(url).netloc).Ok?
    ensures IsDomainName(CheckedHost(SplitUrl(url).netloc).value)
  {
    hide SplitUrl, Host, Folded, IsIpv4, HostError, IsDomainName;
    SplitKeeps(url);
    HostKeeps(SplitUrl(url).netloc);
    PassingIsDomainName(Folded(Host(SplitUrl(url).netloc)));
  }

  /** Every canonical domain is a domain name, and `www.` stays only where nothing registrable would be left. */
  lemma CanonicalIsDomainName(value: string)
    requires Normalize(value).Ok?
    ensures IsDomainName(Normalize(value).value)
    ensures StartsWithWww(Normalize(value).value) ==> |Labels(Normalize(value).value)| == 2
  {
    hide CheckedHost, SplitUrl, WithAuthority, IsDomainName, StripWww, IsAscii, StartsWithWww, Labels;
    var url := WithAuthority(value).value;
    CheckedHostIsName(url);
    StripWwwKeeps(CheckedHost(SplitUrl(url).netloc).value);
  }

  /** Canonicalising twice is canonicalising once. */
  lemma CanonicalIsFixed(value: string)
    requires Normalize(value).Ok?
    ensures Normalize(Normalize(value).value) == Normalize(value)
  {
    CanonicalIsDomainName(value);
    var d := Normalize(value).value;
    PlainSpelling(d);
    EverySpellingIsCanonical(Itself(d), 0, d);
    CanonicalIsStripped(value);
    hide Normalize;
  }

  lemma CanonicalIsStripped(value: string)
    requires Normalize(value).Ok?
    ensures StripWww(Normalize(value).value) == Normalize(value).value
  {
    hide CheckedHost, SplitUrl, WithAuthority, IsDomainName, StripWww, IsAscii;
    var url := WithAuthority(value).value;
    CheckedHostIsName(url);
    StripWwwKeeps(CheckedHost(SplitUrl(url).netloc).value);
  }

  // ---------------------------------------------------------------- where a bare form goes wrong

  lemma {:induction false} FromSlashesSkips(a: string, rest: string)
    requires !HasSlashes(a + "/")
    ensures FromSlashes(a + "//" + rest) == "//" + rest && HasSlashes(a + "//" + rest)
  {
    var s := a + "//" + rest;
    assert SlashesAt(s, |a|);
    if a == "" {
      assert s == "//" + rest;
    } else {
      assert !SlashesAt(a + "/", 0);
      assert (a + "/")[0] == s[0] && (a + "/")[1] == s[1];
      assert s[1..] == a[1..] + "//" + rest;
      forall i | 0 <= i < |a[1..] + "/"|
        ensures !SlashesAt(a[1..] + "/", i)
      {
        assert !SlashesAt(a + "/", i + 1);
        assert (a[1..] + "/")[i] == (a + "/")[i + 1];
      }
      FromSlashesSkips(a[1..], rest);
    }
  }

  /** The canonical domain of a netloc. */
  function Canonical(netloc: string): Result<string, Error> {
    match CheckedHost(netloc)
    case Ok(host) => Ok(StripWww(host))
    case Err(e) => Err(e)
  }

  function UpToPath(s: string): string {
    Before(s, {'/', '?', '#'})
  }

  predicate LeadsWithSlashes(s: string) {
    |s| >= 2 && s[0] == '/' && s[1] == '/'
  }

  /** What a text with a double slash in it is read as naming: what stands after the first one, or nothing. */
  function Named(s: string): Option<string> {
    if !StartsWithScheme(s) then
      var rest := FromSlashes(s);
      if |rest| >= 2 then Some(UpToPath(Without(rest[2..], UNSAFE))) else None
    else
      var rest := Without(s[|Before(s, {':'})| + 1..], UNSAFE);
      if LeadsWithSlashes(rest) then Some(UpToPath(rest[2..])) else None
  }

  lemma {:induction false} FromSlashesLeads(s: string)
    requires HasSlashes(s)
    ensures LeadsWithSlashes(FromSlashes(s))
  {
    if !SlashesAt(s, 0) {
      var i :| 0 <= i < |s| && SlashesAt(s, i);
      assert SlashesAt(s[1..], i - 1);
      FromSlashesLeads(s[1..]);
    }
  }

  lemma EmptyNetloc()
    ensures CheckedHost("") == Err(NoHost)
  {
  }

  lemma SplitsAfterSlashes(rest: string)
    ensures SplitUrl("//" + rest).netloc == UpToPath(Without(rest, UNSAFE))
  {
    var url := "//" + rest;
    assert url[0] == '/' && LStripControls(url) == url;
    WithoutAppends("//", rest, UNSAFE);
    WithoutKeeps("//", UNSAFE);
    SlashesLead(Without(rest, UNSAFE));
    hide Without, StartsWithScheme, HasSlashes, FromSlashes, LStripControls, SplitTail;
    assert ("//" + Without(rest, UNSAFE))[2..] == Without(rest, UNSAFE);
  }

  lemma SchemeSplits(s: string)
    requires StartsWithScheme(s)
    ensures var scheme := Before(s, {':'});
      |scheme| < |s| && IsScheme(scheme) && s == scheme + ":" + s[|scheme| + 1..] && s[0] == scheme[0]
  {
  }

  lemma SchemeBefore(scheme: string, rest: string)
    requires IsScheme(scheme)
    ensures var s := scheme + ":" + rest; StartsWithScheme(s) && Before(s, {':'}) == scheme && s[|scheme| + 1..] == rest
  {
    SchemeIsVisible(scheme);
    BeforeStops(scheme, ":" + rest, {':'});
    assert scheme + ":" + rest == scheme + (":" + rest);
  }

  lemma ControlsStay(s: string)
    requires s != "" && s[0] > ' '
    ensures LStripControls(s) == s
  {
  }

  lemma SchemeStays(s: string)
    requires StartsWithScheme(s)
    ensures
      var scheme := Before(s, {':'});
      var rest := Without(s[|scheme| + 1..], UNSAFE);
      LStripControls(s) == s && Without(s, UNSAFE) == scheme + ":" + rest
      && StartsWithScheme(scheme + ":" + rest) && Before(scheme + ":" + rest, {':'}) == scheme
  {
    SchemeSplits(s);
    hide StartsWithScheme, Without, LStripControls, IsScheme, Before;
    var scheme := Before(s, {':'});
    var rest := s[|scheme| + 1..];
    SchemeIsVisible(scheme);
    ControlsStay(s);
    WithoutKeeps(scheme + ":", UNSAFE);
    WithoutAppends(scheme + ":", rest, UNSAFE);
    SchemeBefore(scheme, Without(rest, UNSAFE));
  }

  lemma SplitsAfterScheme(s: string)
    requires StartsWithScheme(s)
    ensures SplitUrl(s).netloc == if Named(s).Some? then Named(s).value else ""
  {
    SchemeStays(s);
    var scheme := Before(s, {':'});
    var rest := Without(s[|scheme| + 1..], UNSAFE);
    assert (scheme + ":" + rest)[|scheme| + 1..] == rest;
    hide Without, StartsWithScheme, LStripControls, SplitTail;
  }

  /** Every text with a double slash in it, canonical or not, is read as what the first one leads to. */
  lemma SlashedIsReadAs(value: string)
    requires IsAscii(value) && HasSlashes(Strip(value, SPACES))
    ensures Normalize(value) == match Named(Strip(value, SPACES)) case Some(n) => Canonical(n) case None => Err(NoHost)
  {
    var s := Strip(value, SPACES);
    EmptyNetloc();
    if StartsWithScheme(s) {
      SplitsAfterScheme(s);
      hide Strip, CheckedHost, SplitUrl, HasSlashes, Named, StripWww;
    } else {
      FromSlashesLeads(s);
      var rest := FromSlashes(s)[2..];
      assert FromSlashes(s) == "//" + rest;
      SplitsAfterSlashes(rest);
      hide Strip, CheckedHost, SplitUrl, HasSlashes, FromSlashes, StripWww, UpToPath;
    }
  }

  /**
   * A bare form that holds a double slash keeps its domain exactly when what the first double slash leads to
   * has the same canonical domain.
   */
  lemma BareSlashesKeepExactlyWhen(sp: Spelling, k: nat, h: string)
    requires Names(sp, k, h) && sp.form.Bare? && HasSlashes(Core(sp)) && IsDomainName(h)
    ensures Normalize(Render(sp)) == Normalize(h) <==> Named(Core(sp)).Some? && Canonical(Named(Core(sp)).value) == Ok(StripWww(h))
  {
    RenderIsAscii(sp, k, h);
    CoreIsStripped(sp, k, h);
    SlashedIsReadAs(Render(sp));
    PlainSpelling(h);
    EverySpellingIsCanonical(Itself(h), 0, h);
    hide Normalize, Render, Core, Named, Canonical, Names, IsDomainName, StripWww;
  }

  /** Two names in a bare form: unless the first looks like a scheme, it is dropped and the second, with all that follows it, is read. */
  lemma DoubleSlashWins(a: string, sp: Spelling, k: nat, h: string)
    requires Names(sp, k, h) && sp.form.Slashes? && sp.front == "" && IsDomainName(h)
    requires IsAscii(a) && a != "" && a[0] !in SPACES && !HasSlashes(a + "/") && !StartsWithScheme(a + Core(sp))
    ensures Normalize(a + Render(sp)) == if 4 * k + |h| <= MAX_DOMAIN_LENGTH then Ok(StripWww(h)) else Err(TooLong)
  {
    hide IsDomainName, Wwws, Names, Authority, CheckedHost, StripWww, HasSlashes, FromSlashes, StartsWithScheme, Strip, SplitUrl, Dots, Normalize, Named, Core, Render, Without, InAuthority;
    AuthorityCharacters(sp, k, h);
    RenderIsAscii(sp, k, h);
    CoreEnds(sp, k, h);
    CheckedHostOf(sp, k, h);
    HasNameLabels(h);
    WwwsStripped(k, h);
    TailOf(sp, k, h);
    AsciiAppends(a, Render(sp));
    StripsJoined(a, sp);
    CoreOf(sp);
    NamedAfter(a, Authority(sp), sp.tail);
    SlashesInside(a, Authority(sp) + sp.tail);
    SlashedIsReadAs(a + Render(sp));
  }

  lemma HasNameLabels(h: string)
    requires IsDomainName(h)
    ensures LabelsAreNames(Labels(h))
  {
  }

  lemma TailOf(sp: Spelling, k: nat, h: string)
    requires Names(sp, k, h)
    ensures (sp.tail != "" ==> sp.tail[0] in "/?#") && AllSpaces(sp.end)
  {
  }

  lemma CoreOf(sp: Spelling)
    requires sp.form.Slashes?
    ensures Core(sp) == "//" + (Authority(sp) + sp.tail)
  {
  }

  lemma SlashesInside(a: string, rest: string)
    requires !HasSlashes(a + "/")
    ensures HasSlashes(a + ("//" + rest))
  {
    FromSlashesSkips(a, rest);
    assert a + "//" + rest == a + ("//" + rest);
  }

  lemma StripsJoined(a: string, sp: Spelling)
    requires sp.front == "" && AllSpaces(sp.end) && a != "" && a[0] !in SPACES
    requires Core(sp) != "" && Core(sp)[|Core(sp)| - 1] !in SPACES
    ensures Strip(a + Render(sp), SPACES) == a + Core(sp)
  {
    hide Strip, Core;
    var s := a + Core(sp);
    assert a + Render(sp) == "" + s + sp.end;
    assert s[0] == a[0] && s[|s| - 1] == Core(sp)[|Core(sp)| - 1];
    StripFrame("", s, sp.end, SPACES);
  }

  lemma NamedAfter(a: string, auth: string, tail: string)
    requires (forall c :: c in auth ==> InAuthority(c)) && (tail != "" ==> tail[0] in "/?#")
    requires !HasSlashes(a + "/") && !StartsWithScheme(a + ("//" + (auth + tail)))
    ensures Named(a + ("//" + (auth + tail))) == Some(auth)
  {
    hide HasSlashes, FromSlashes, StartsWithScheme, Without, UpToPath, InAuthority;
    FromSlashesSkips(a, auth + tail);
    assert a + "//" + (auth + tail) == a + ("//" + (auth + tail));
    assert ("//" + (auth + tail))[2..] == auth + tail;
    AfterSlashes(auth, tail);
  }

  lemma AsciiAppends(a: string, b: string)
    requires IsAscii(a) && IsAscii(b)
    ensures IsAscii(a + b)
  {
  }

  lemma AfterSlashes(auth: string, tail: string)
    requires (forall c :: c in auth ==> InAuthority(c)) && (tail != "" ==> tail[0] in "/?#")
    ensures UpToPath(Without(auth + tail, UNSAFE)) == auth
  {
    WithoutAppends(auth, tail, UNSAFE);
    WithoutKeeps(auth, UNSAFE);
    CleanTail(tail);
    BeforeStops(auth, Without(tail, UNSAFE), {'/', '?', '#'});
  }

  /** So it keeps its domain exactly when both names have the same canonical domain. */
  lemma TwoNamesAgreeExactlyWhen(first: Spelling, j: nat, g: string, second: Spelling, k: nat, h: string)
    requires IsSpelling(first, j, g) && IsDomainName(g) && first.form.Bare? && 4 * j + |g| <= MAX_DOMAIN_LENGTH
    requires Names(second, k, h) && IsDomainName(h) && second.form.Slashes? && second.front == "" && 4 * k + |h| <= MAX_DOMAIN_LENGTH
    requires !HasSlashes(Core(first) + "/") && !StartsWithScheme(Core(first) + Core(second))
    ensures Normalize(Core(first) + Render(second)) == Normalize(Render(first)) <==> StripWww(h) == StripWww(g)
  {
    EverySpellingIsCanonical(first, j, g);
    CoreStarts(first, j, g);
    hide Normalize, IsDomainName, Names, IsSpelling, Core, Render, StripWww, HasSlashes, StartsWithScheme;
    DoubleSlashWins(Core(first), second, k, h);
  }

  lemma CoreStarts(sp: Spelling, k: nat, h: string)
    requires Names(sp, k, h) && IsDomainName(h) && sp.form.Bare?
    ensures IsAscii(Core(sp)) && Core(sp) != "" && Core(sp)[0] !in SPACES
  {
    RenderIsAscii(sp, k, h);
    AuthorityCharacters(sp, k, h);
    hide IsDomainName, Authority, Wwws, Names;
    assert Authority(sp)[0] in Authority(sp);
    assert forall c :: c in Core(sp) ==> c in Render(sp);
  }

  lemma CoreEnds(sp: Spelling, k: nat, h: string)
    requires Names(sp, k, h) && IsDomainName(h)
    ensures Core(sp) != "" && Core(sp)[|Core(sp)| - 1] !in SPACES
  {
    AuthorityCharacters(sp, k, h);
    hide IsDomainName, Authority, Wwws, Dots, Lower, IsScheme, HasSlashes;
    var auth := Authority(sp);
    assert auth[|auth| - 1] in auth;
    assert Core(sp)[|Core(sp)| - 1] == if sp.tail != "" then sp.tail[|sp.tail| - 1] else auth[|auth| - 1];
  }

  /**
   * A bare host with a port, and a double slash further on, is refused: host and colon read as a scheme with
   * no authority behind it.
   */
  lemma PortBeforeSlashesIsRefused(sp: Spelling, k: nat, h: string)
    requires Names(sp, k, h) && IsDomainName(h) && sp.form.Bare? && HasSlashes(Core(sp))
    requires sp.user == "" && IsLetter(sp.text[0]) && |sp.port| >= 2
    ensures Normalize(Render(sp)) == Err(NoHost)
  {
    hide IsDomainName, Wwws, Lower, HasSlashes, Normalize, Strip, Dots, Canonical, Names, Core, Render, Named, StartsWithScheme, Without;
    RenderIsAscii(sp, k, h);
    CoreIsStripped(sp, k, h);
    SlashedIsReadAs(Render(sp));
    NameCharacters(sp, k, h);
    NameIsScheme(sp, k, h);
    PortedCore(sp, k, h);
    NothingNamed(sp.text + Dots(sp.dots), sp.port[1..] + sp.tail);
  }

  lemma PortedCore(sp: Spelling, k: nat, h: string)
    requires Names(sp, k, h) && sp.form.Bare? && sp.user == "" && |sp.port| >= 2
    ensures Core(sp) == (sp.text + Dots(sp.dots)) + ":" + (sp.port[1..] + sp.tail)
    ensures var rest := sp.port[1..] + sp.tail; rest != "" && rest[0] !in UNSAFE && rest[0] != '/'
  {
    hide Wwws, Lower, IsTail, Dots;
    assert sp.port[1] in sp.port;
    assert sp.port == ":" + sp.port[1..];
    assert (sp.port[1..] + sp.tail)[0] == sp.port[1];
  }

  lemma NothingNamed(scheme: string, rest: string)
    requires IsScheme(scheme) && rest != "" && rest[0] !in UNSAFE && rest[0] != '/'
    ensures Named(scheme + ":" + rest) == None
  {
    hide StartsWithScheme, Without, IsScheme, LeadsWithSlashes;
    SchemeBefore(scheme, rest);
    FirstStays(rest);
  }

  lemma NameIsScheme(sp: Spelling, k: nat, h: string)
    requires Names(sp, k, h) && IsDomainName(h) && sp.text != "" && IsLetter(sp.text[0])
    ensures IsScheme(sp.text + Dots(sp.dots))
  {
    DomainNameIsPlain(h);
    WwwsArePlain(k);
    hide IsDomainName, Wwws;
    var name := sp.text + Dots(sp.dots);
    forall c | c in name
      ensures InScheme(c)
    {
      if c in sp.text {
        var i :| 0 <= i < |sp.text| && sp.text[i] == c;
        assert Lower(sp.text)[i] in Wwws(k) + h;
        PlainInScheme(c);
      }
    }
  }

  lemma PlainInScheme(c: char)
    requires Plain(LowerChar(c))
    ensures InScheme(c)
  {
  }

  lemma FirstStays(s: string)
    requires s != "" && s[0] !in UNSAFE && s[0] != '/'
    ensures !LeadsWithSlashes(Without(s, UNSAFE))
  {
  }

  lemma SlashBeforeColon(a: string, rest: string)
    requires ':' !in a && '/' in a
    ensures !StartsWithScheme(a + rest)
  {
    var i :| 0 <= i < |a| && a[i] == '/';
    BeforeIncludes(a, rest);
    var scheme := Before(a + rest, {':'});
    assert scheme[i] == '/' && scheme[i] in scheme;
  }

  lemma {:induction false} BeforeIncludes(a: string, rest: string)
    requires ':' !in a
    ensures a <= Before(a + rest, {':'})
  {
    if a != "" {
      assert (a + rest)[0] == a[0] && (a + rest)[1..] == a[1..] + rest;
      BeforeIncludes(a[1..], rest);
    }
  }

  lemma ShortName()
    ensures IsDomainName("b.com")
  {
    ShortLabels();
    hide IsLabel, AllDigits, Labels, Joined;
    LabelsCons("b", "com");
    LabelsOne("com");
    assert "b" + "." + "com" == "b.com";
    assert Labels("b.com") == ["b", "com"];
  }

  lemma ShortLabels()
    ensures IsLabel("b") && IsLabel("com") && !AllDigits("com")
  {
    assert "com"[0] in "com" && !IsDigit("com"[0]);
  }

  lemma OneSlash()
    ensures var a := "a.com/?u=https:"; IsAscii(a) && !HasSlashes(a + "/")
  {
    var t := "a.com/?u=https:" + "/";
    forall i | 0 <= i < |t|
      ensures !SlashesAt(t, i)
    {
      assert i == 5 || i == 15 || t[i] != '/';
    }
  }

  /** The second name of the examples, with a path of its own. */
  const SECOND := Spelling("", Slashes, "", "b.com", 0, "", "/t", "")

  /** A domain name with a port and a path after it names itself. */
  lemma PlainTextNames(h: string, f: Form, port: string, tail: string)
    requires IsDomainName(h) && !f.Scheme? && IsTail(tail)
    requires (forall c :: c in port ==> InAuthority(c)) && (port != "" ==> port[0] == ':' && '@' !in port)
    ensures Names(Spelling("", f, "", h, 0, port, tail, ""), 0, h)
  {
    hide IsDomainName, Plain, Lower, Wwws, InAuthority, IsScheme, IsTail;
    DomainNameIsPlain(h);
    PlainIsLow(h);
    NoWww(h);
  }

  lemma SecondTail()
    ensures IsTail("/t")
  {
  }

  lemma SecondIsNamed()
    ensures Names(SECOND, 0, "b.com") && Render(SECOND) == "//b.com/t"
  {
    hide IsDomainName, IsTail, Render, Names, InAuthority;
    SecondTail();
    SecondRenders();
    ShortName();
    PlainTextNames("b.com", Slashes, "", "/t");
  }

  lemma SecondRenders()
    ensures Core(SECOND) == "//b.com/t" && Render(SECOND) == "//b.com/t"
  {
    assert Authority(SECOND) == "b.com";
  }

  /** So a URL in the query of a bare form changes the name: this one is read as `b.com`. */
  lemma BareQueryCanChangeTheName()
    ensures Normalize("a.com/?u=https:" + "//b.com/t") == Ok("b.com")
  {
    hide Normalize, IsDomainName, HasSlashes, Names, StripWww, IsAscii, StartsWithScheme, Core, Render, SPACES;
    ShortName();
    NoWwwToStrip("b.com");
    OneSlash();
    SecondIsNamed();
    SecondRenders();
    QueryIsNoScheme("//b.com/t");
    DoubleSlashWins("a.com/?u=https:", SECOND, 0, "b.com");
  }

  lemma QueryIsNoScheme(rest: string)
    ensures !StartsWithScheme("a.com/?u=https:" + rest) && "a.com/?u=https:"[0] !in SPACES
  {
    assert "a.com/"[5] == '/';
    SlashBeforeColon("a.com/", "?u=https:" + rest);
    assert "a.com/" + ("?u=https:" + rest) == "a.com/?u=https:" + rest;
  }

  /** And with a port in front it is refused. */
  lemma BarePortCanBeRefused()
    ensures Normalize("b.com:80/x//c") == Err(NoHost)
  {
    hide Normalize, IsDomainName, HasSlashes, Names, Core, Render;
    var sp := Spelling("", Bare, "", "b.com", 0, ":80", "/x//c", "");
    ShortName();
    PortedIsNamed();
    PortBeforeSlashesIsRefused(sp, 0, "b.com");
  }

  lemma PortedIsNamed()
    ensures
      var sp := Spelling("", Bare, "", "b.com", 0, ":80", "/x//c", "");
      Names(sp, 0, "b.com") && HasSlashes(Core(sp)) && Render(sp) == "b.com:80/x//c"
  {
    PortedParts();
    PortedRenders();
    hide IsDomainName, IsTail, Render, Names, Core, InAuthority;
    ShortName();
    PlainTextNames("b.com", Bare, ":80", "/x//c");
  }

  lemma PortedParts()
    ensures IsTail("/x//c") && (forall c :: c in ":80" ==> InAuthority(c)) && '@' !in ":80"
  {
  }

  lemma PortedRenders()
    ensures
      var sp := Spelling("", Bare, "", "b.com", 0, ":80", "/x//c", "");
      HasSlashes(Core(sp)) && Render(sp) == "b.com:80/x//c"
  {
    var sp := Spelling("", Bare, "", "b.com", 0, ":80", "/x//c", "");
    assert Authority(sp) == "b.com:80";
    assert Core(sp) == "b.com:80/x//c";
    assert SlashesAt("b.com:80/x//c", 10);
  }

  lemma NoWwwToStrip(h: string)
    requires h != "" && h[0] != 'w'
    ensures StripWww(h) == h
  {
  }

  // ---------------------------------------------------------------- the registrable part

  lemma {:induction false} JoinedSuffix(labels: seq<string>, i: nat) returns (lead: string)
    requires i < |labels|
    ensures Joined(labels) == lead + Joined(labels[i..])
    ensures lead == "" || lead[|lead| - 1] == '.'
  {
    if i == 0 {
      lead := "";
      assert labels[0..] == labels;
    } else {
      var rest := JoinedSuffix(labels[1..], i - 1);
      assert labels[1..][i - 1..] == labels[i..];
      lead := labels[0] + "." + rest;
    }
  }

  lemma {:induction false} LabelsOfJoined(labels: seq<string>)
    requires labels != [] && forall l :: l in labels ==> '.' !in l
    ensures Labels(Joined(labels)) == labels
  {
    if |labels| == 1 {
      LabelsOne(labels[0]);
    } else {
      LabelsOfJoined(labels[1..]);
      LabelsCons(labels[0], Joined(labels[1..]));
    }
  }

  /** The labels of `host` from the i-th on are the labels of a suffix of it that starts after a dot. */
  lemma LabelSuffix(host: string, i: nat) returns (lead: string)
    requires i < |Labels(host)|
    ensures host == lead + Joined(Labels(host)[i..]) && (lead == "" || lead[|lead| - 1] == '.')
    ensures Labels(Joined(Labels(host)[i..])) == Labels(host)[i..]
  {
    hide Labels, Joined;
    LabelsJoined(host);
    LabelsAreParts(host);
    lead := JoinedSuffix(Labels(host), i);
    LabelsOfJoined(Labels(host)[i..]);
  }

  /**
   * The registrable domain is the canonical domain or ends it at a dot; it has two labels, or three exactly
   * when the last two are a listed suffix and there is a third.
   */
  lemma RegistrableIsSuffix(value: string) returns (lead: string)
    requires Registrable(value).Ok?
    ensures Normalize(value).Ok? && Normalize(value).value == lead + Registrable(value).value
    ensures lead == "" || lead[|lead| - 1] == '.'
    ensures
      var all, kept := Labels(Normalize(value).value), Labels(Registrable(value).value);
      |all| >= 2 && |kept| == if |all| > 2 && Joined(all[|all| - 2..]) in MULTI_LABEL_SUFFIXES then 3 else 2
  {
    hide Normalize, MULTI_LABEL_SUFFIXES, Labels, Joined;
    CanonicalIsDomainName(value);
    var labels := Labels(Normalize(value).value);
    var n := |labels|;
    if n <= 2 {
      lead := "";
    } else {
      lead := LabelSuffix(Normalize(value).value, if Joined(labels[n - 2..]) in MULTI_LABEL_SUFFIXES then n - 3 else n - 2);
    }
  }

  // ---------------------------------------------------------------- agreement with the canonical URL

  lemma AbsoluteHasAuthority(value: string)
    requires IsAbsolute(Strip(value, SPACES))
    ensures WithAuthority(value) == Ok(Strip(value, SPACES))
  {
    var s := Strip(value, SPACES);
    assert SlashesAt(s, |Before(s, {':'})| + 1);
    assert HasSlashes(s);
  }

  lemma WebScheme(scheme: string)
    requires scheme == "http" || scheme == "https"
    ensures IsScheme(scheme)
  {
  }

  /** Everything after the host of a canonical URL. */
  function Rest(path: string, query: string): string {
    (if path == "/" then "" else path) + (if query == "" then "" else "?" + query)
  }

  function PortText(scheme: string, port: Option<nat>): string {
    if port.Some? && port.value != DefaultPort(scheme) then ":" + Decimal(port.value) else ""
  }

  lemma DigitsAreClean(s: string)
    requires forall c :: c in s ==> IsDigit(c)
    ensures (forall c :: c in ":" + s ==> InAuthority(c)) && '@' !in ":" + s
  {
  }

  /** A canonical URL is one more spelling of its host. */
  lemma AssembledSpells(scheme: string, host: string, port: Option<nat>, path: string, query: string) returns (sp: Spelling)
    requires IsDomainName(host) && (scheme == "http" || scheme == "https")
    requires (path == "" || path[0] == '/') && IsAscii(path) && IsAscii(query)
    ensures IsSpelling(sp, 0, host) && Render(sp) == Assembled(scheme, host, port, path, query)
  {
    hide IsDomainName, Plain, Lower, InAuthority, IsScheme, Render, Assembled, Wwws, PortText, Rest, IsTail, RStrip, Core;
    var rest := Rest(path, query);
    var end := RStripSplits(rest, SPACES);
    var tail := RStrip(rest, SPACES);
    sp := Spelling("", Scheme(scheme), "", host, 0, PortText(scheme, port), tail, end);
    TailOfRest(path, query, end);
    PortIsClean(scheme, port);
    DomainNameIsPlain(host);
    PlainIsLow(host);
    NoWww(host);
    WebScheme(scheme);
    AssembledRenders(scheme, host, port, path, query, tail, end);
  }

  lemma PortIsClean(scheme: string, port: Option<nat>)
    ensures var p := PortText(scheme, port);
      (forall c :: c in p ==> InAuthority(c)) && (p != "" ==> p[0] == ':' && '@' !in p)
  {
    hide InAuthority;
    if port.Some? {
      DigitsAreClean(Decimal(port.value));
    }
  }

  lemma TailOfRest(path: string, query: string, end: string)
    requires (path == "" || path[0] == '/') && IsAscii(path) && IsAscii(query)
    requires Rest(path, query) == RStrip(Rest(path, query), SPACES) + end && AllSpaces(end)
    requires var t := RStrip(Rest(path, query), SPACES); t == "" || t[|t| - 1] !in SPACES
    ensures IsTail(RStrip(Rest(path, query), SPACES))
  {
    var rest, tail := Rest(path, query), RStrip(Rest(path, query), SPACES);
    RStripKeeps(rest, SPACES);
    assert rest != "" ==> rest[0] in "/?#";
    assert tail != "" ==> tail[0] == rest[0];
    assert IsAscii(rest);
    hide Rest, RStrip;
  }

  lemma AssembledRenders(scheme: string, host: string, port: Option<nat>, path: string, query: string, tail: string, end: string)
    requires tail + end == Rest(path, query)
    ensures Render(Spelling("", Scheme(scheme), "", host, 0, PortText(scheme, port), tail, end)) == Assembled(scheme, host, port, path, query)
  {
    AssembledText(scheme, host, port, path, query);
    hide PortText, Rest, Assembled;
    RenderedText(scheme, host, PortText(scheme, port), tail, end);
  }

  lemma AssembledText(scheme: string, host: string, port: Option<nat>, path: string, query: string)
    ensures Assembled(scheme, host, port, path, query) == scheme + "://" + host + PortText(scheme, port) + Rest(path, query)
  {
    hide Decimal;
  }

  lemma RenderedText(scheme: string, host: string, port: string, tail: string, end: string)
    ensures Render(Spelling("", Scheme(scheme), "", host, 0, port, tail, end)) == scheme + "://" + host + port + (tail + end)
  {
    var sp := Spelling("", Scheme(scheme), "", host, 0, port, tail, end);
    assert Authority(sp) == host + port;
    assert Render(sp) == scheme + "://" + host + port + (tail + end);
  }

  /** A canonical URL has the canonical domain of the URL it was made from. */
  lemma AssembledKeeps(url: string, port: Option<nat>)
    requires IsAscii(url) && (SplitUrl(url).scheme == "http" || SplitUrl(url).scheme == "https")
    requires CheckedHost(SplitUrl(url).netloc).Ok?
    ensures
      var p := SplitUrl(url);
      Normalize(Assembled(p.scheme, CheckedHost(p.netloc).value, port, p.path, p.query)) == Canonical(p.netloc)
  {
    var p := SplitUrl(url);
    SplitKeeps(url);
    CheckedHostIsName(url);
    var host := CheckedHost(p.netloc).value;
    SameHost(p.netloc);
    hide SplitUrl, CheckedHost, StripWww, IsDomainName, Assembled, Normalize;
    var sp := AssembledSpells(p.scheme, host, port, p.path, p.query);
    EverySpellingIsCanonical(sp, 0, host);
    ShortEnough(host);
    hide Render, IsSpelling;
  }

  lemma AbsoluteIsReadAs(value: string)
    requires IsAbsolute(Strip(value, SPACES)) && Normalize(value).Ok?
    ensures Normalize(value) == Canonical(SplitUrl(Strip(value, SPACES)).netloc)
  {
    AbsoluteHasAuthority(value);
    hide SplitUrl, CheckedHost, Strip, StripWww, IsAbsolute;
  }

  /** A bare form without a double slash has the same netloc whether it is read bare or behind a scheme. */
  lemma BareIsReadAs(value: string)
    requires !HasSlashes(Strip(value, SPACES)) && Normalize(value).Ok?
    ensures
      var s := Strip(value, SPACES);
      Normalize(value) == Canonical(SplitUrl("https://" + s).netloc) && SplitUrl("https://" + s).scheme == "https"
      && s != "" && !IsAbsolute(s) && LStrip(s, {'/'}) == s
  {
    var s := Strip(value, SPACES);
    SplitsAfterSlashes(s);
    SplitsAfterHttps(s);
    EmptyNetloc();
    NotAbsolute(s);
    LeadingSlash(s);
    hide SplitUrl, CheckedHost, Strip, StripWww, HasSlashes, IsAbsolute, UpToPath, Without;
  }

  lemma NotAbsolute(s: string)
    requires !HasSlashes(s)
    ensures !IsAbsolute(s)
  {
    if StartsWithScheme(s) {
      var i := |Before(s, {':'})| + 1;
      assert i < |s| ==> !SlashesAt(s, i);
    }
  }

  lemma LeadingSlash(s: string)
    ensures s != "" && s[0] == '/' ==> UpToPath(Without(s, UNSAFE)) == ""
    ensures s == "" ==> UpToPath(Without(s, UNSAFE)) == ""
  {
  }

  lemma SplitsAfterHttps(s: string)
    ensures SplitUrl("https://" + s).netloc == UpToPath(Without(s, UNSAFE)) && SplitUrl("https://" + s).scheme == "https"
  {
    hide Without, StartsWithScheme, LStripControls, SplitTail, Before, IsScheme, Lower, SplitRest;
    var url := "https://" + s;
    WebScheme("https");
    SchemeBefore("https", "//" + s);
    assert url == "https" + ":" + ("//" + s);
    WithoutAppends("//", s, UNSAFE);
    WithoutKeeps("//", UNSAFE);
    SchemeStays(url);
    LowHttps();
    SchemeBefore("https", "//" + Without(s, UNSAFE));
    RestAfterSlashes("https", Without(s, UNSAFE));
  }

  lemma LowHttps()
    ensures Lower("https") == "https"
  {
  }

  lemma RestAfterSlashes(scheme: string, rest: string)
    ensures SplitRest(scheme, "//" + rest).netloc == UpToPath(rest) && SplitRest(scheme, "//" + rest).scheme == scheme
  {
    assert ("//" + rest)[2..] == rest;
  }

  /** A text that starts with two slashes has the same netloc behind a scheme. */
  lemma SlashesAreReadAs(value: string)
    requires LeadsWithSlashes(Strip(value, SPACES)) && Normalize(value).Ok?
    ensures
      var s := Strip(value, SPACES);
      var rest := s[2..];
      Normalize(value) == Canonical(SplitUrl("https://" + rest).netloc) && SplitUrl("https://" + rest).scheme == "https"
      && !IsAbsolute(s) && LStrip(s, {'/'}) == rest
  {
    hide Normalize, SplitUrl, CheckedHost, Strip, StripWww, HasSlashes, UpToPath, Without, FromSlashes, StartsWithScheme, LStrip, IsAbsolute;
    var s := Strip(value, SPACES);
    var rest := s[2..];
    assert s == "//" + rest;
    AcceptedIsAscii(value);
    SlashesLead(rest);
    SlashedIsReadAs(value);
    SplitsAfterHttps(rest);
    NoSchemeNotAbsolute(s);
    EmptyNetloc();
    LeadingSlash(rest);
    SlashesGo(rest);
  }

  lemma AcceptedIsAscii(value: string)
    requires Normalize(value).Ok?
    ensures IsAscii(value)
  {
    hide CheckedHost, SplitUrl, WithAuthority, StripWww;
  }

  lemma NoSchemeNotAbsolute(s: string)
    requires !StartsWithScheme(s)
    ensures !IsAbsolute(s)
  {
    hide StartsWithScheme;
  }

  lemma SlashesGo(rest: string)
    ensures (rest == "" || rest[0] != '/') ==> LStrip("//" + rest, {'/'}) == rest
  {
    if rest == "" || rest[0] != '/' {
      LStripAll("//", rest, {'/'});
    }
  }

  lemma AsciiCandidate(value: string)
    requires IsAscii(value)
    ensures IsAscii(Strip(value, SPACES))
  {
    LStripKeeps(value, SPACES);
    RStripKeeps(LStrip(value, SPACES), SPACES);
    hide LStrip, RStrip;
  }

  lemma AsciiUrl(s: string, i: nat)
    requires IsAscii(s) && i <= |s|
    ensures IsAscii("https://" + s[i..])
  {
    forall c | c in "https://" + s[i..]
      ensures c < '\U{80}'
    {
      assert c in "https://" || c in s;
    }
  }

  /**
   * Canonicalising the URL first leaves the domain the same, for every value both functions accept that is an
   * absolute URL, starts with two slashes, or holds no double slash at all.
   */
  lemma UrlKeepsDomain(value: string)
    requires var s := Strip(value, SPACES); IsAbsolute(s) || LeadsWithSlashes(s) || !HasSlashes(s)
    requires Normalize(value).Ok? && NormalizeUrl(value).Ok?
    ensures Normalize(NormalizeUrl(value).value) == Normalize(value)
  {
    AsciiCandidate(value);
    var s := Strip(value, SPACES);
    if IsAbsolute(s) {
      AbsoluteIsReadAs(value);
      UrlIs(value, s);
    } else if LeadsWithSlashes(s) {
      SlashesAreReadAs(value);
      AsciiUrl(s, 2);
      UrlIs(value, "https://" + s[2..]);
    } else {
      BareIsReadAs(value);
      AsciiUrl(s, 0);
      assert s[0..] == s;
      UrlIs(value, "https://" + s);
    }
  }

  /** If both functions read the value through the same URL, they agree on its domain. */
  lemma UrlIs(value: string, url: string)
    requires Normalize(value).Ok? && NormalizeUrl(value).Ok? && IsAscii(url)
    requires var s := Strip(value, SPACES); url == if IsAbsolute(s) then s else "https://" + LStrip(s, {'/'})
    requires Normalize(value) == Canonical(SplitUrl(url).netloc)
    ensures Normalize(NormalizeUrl(value).value) == Normalize(value)
  {
    CanonicalIsChecked(SplitUrl(url).netloc);
    SameHost(SplitUrl(url).netloc);
    hide SplitUrl, CheckedHost, Strip, LStrip, StripWww, Normalize, UrlHost, Assembled, Port, IsAbsolute, Canonical, IsAscii;
    AssembledKeeps(url, Port(SplitUrl(url).netloc).value);
  }

  lemma CanonicalIsChecked(netloc: string)
    requires Canonical(netloc).Ok?
    ensures CheckedHost(netloc).Ok?
  {
    hide CheckedHost, StripWww;
  }

  lemma ShortEnough(host: string)
    requires IsDomainName(host)
    ensures |host| <= MAX_DOMAIN_LENGTH
  {
  }

  lemma SameHost(netloc: string)
    requires CheckedHost(netloc).Ok?
    ensures UrlHost(netloc) == CheckedHost(netloc) && netloc != ""
  {
    hide HostError, Folded, IsIpv4;
  }

  // ---------------------------------------------------------------- addresses and ports

  lemma {:induction false} DecimalReads(n: nat)
    ensures Value(Decimal(n)) == n && (Decimal(n)[0] == '0' <==> n == 0)
    ensures |Decimal(n)| <= 3 <==> n < 1000
    ensures |Decimal(n)| <= 2 <==> n < 100
    ensures |Decimal(n)| <= 1 <==> n < 10
  {
    if n < 10 {
      assert Decimal(n) == ['0' + n as char] && Decimal(n)[..0] == "";
      assert Value(Decimal(n)[..0]) == 0;
    } else {
      DecimalReads(n / 10);
      assert Decimal(n)[..|Decimal(n)| - 1] == Decimal(n / 10);
    }
  }

  lemma OctetIs(n: nat)
    ensures IsOctet(Decimal(n)) <==> n <= 255
  {
    DecimalReads(n);
    assert n == 0 ==> Decimal(n) == "0";
    hide Decimal, Value;
  }

  lemma DottedParts(a: string, b: string, c: string, d: string)
    requires '.' !in a && '.' !in b && '.' !in c && '.' !in d
    ensures IsIpv4(Joined([a, b, c, d])) <==> IsOctet(a) && IsOctet(b) && IsOctet(c) && IsOctet(d)
  {
    hide Joined, Labels, IsOctet;
    var parts := [a, b, c, d];
    LabelsOfJoined(parts);
    assert parts[0] == a && parts[1] == b && parts[2] == c && parts[3] == d;
  }

  lemma DecimalHasNoDot(n: nat)
    ensures '.' !in Decimal(n)
  {
    hide Decimal;
    assert !IsDigit('.');
  }

  /** Four decimal numbers with dots between are taken for an address exactly when none exceeds 255. */
  lemma QuadIsAddressExactlyWhen(a: nat, b: nat, c: nat, d: nat)
    ensures IsIpv4(Joined([Decimal(a), Decimal(b), Decimal(c), Decimal(d)])) <==> a <= 255 && b <= 255 && c <= 255 && d <= 255
  {
    hide Decimal, Joined, Labels, IsOctet, IsIpv4, IsDigit;
    OctetIs(a);
    OctetIs(b);
    OctetIs(c);
    OctetIs(d);
    DecimalHasNoDot(a);
    DecimalHasNoDot(b);
    DecimalHasNoDot(c);
    DecimalHasNoDot(d);
    DottedParts(Decimal(a), Decimal(b), Decimal(c), Decimal(d));
  }

  lemma AssembledNames(scheme: string, host: string, port: Option<nat>, path: string, query: string)
    requires scheme == "http" || scheme == "https"
    ensures
      var rest := (if path == "/" then "" else path) + (if query == "" then "" else "?" + query);
      Assembled(scheme, host, port, path, query)
      == if port.None? || port.value == (if scheme == "http" then 80 else 443) then scheme + "://" + host + rest
         else scheme + "://" + host + ":" + Decimal(port.value) + rest
  {
    hide Decimal;
  }

  lemma PortIsSmall(netloc: string)
    ensures Port(netloc).Ok? && Port(netloc).value.Some? ==> Port(netloc).value.value <= 65535
  {
    hide HostInfo, AllDigits, Value, Before;
  }

  /** A canonical URL names its port exactly when that is not 80 for http or 443 for https, and is at most 65535. */
  lemma PortIsNamedExactlyWhen(value: string)
    requires NormalizeUrl(value).Ok?
    ensures
      var stripped := Strip(value, SPACES);
      var parts := SplitUrl(if IsAbsolute(stripped) then stripped else "https://" + LStrip(stripped, {'/'}));
      var rest := (if parts.path == "/" then "" else parts.path) + (if parts.query == "" then "" else "?" + parts.query);
      (parts.scheme == "http" || parts.scheme == "https")
      && UrlHost(parts.netloc).Ok? && Port(parts.netloc).Ok?
      && var port := Port(parts.netloc).value;
         (port.Some? ==> port.value <= 65535)
         && NormalizeUrl(value).value
            == if port.None? || port.value == (if parts.scheme == "http" then 80 else 443)
               then parts.scheme + "://" + UrlHost(parts.netloc).value + rest
               else parts.scheme + "://" + UrlHost(parts.netloc).value + ":" + Decimal(port.value) + rest
  {
    hide SplitUrl, UrlHost, Port, Strip, LStrip, IsAbsolute, Decimal, Assembled, IsAscii;
    var stripped := Strip(value, SPACES);
    var parts := SplitUrl(if IsAbsolute(stripped) then stripped else "https://" + LStrip(stripped, {'/'}));
    PortIsSmall(parts.netloc);
    AssembledNames(parts.scheme, UrlHost(parts.netloc).value, Port(parts.netloc).value, parts.path, parts.query);
  }
}
