/** Splitting strings, and the routing table a broker keeps as a text file: one line per fetch,
    channel:upstream>downstream;flag. */
module RoutingText {

  // ---- SplitString ----

  predicate At(data: string, d: string, pos: nat) {
    pos + |d| <= |data| && data[pos..pos + |d|] == d
  }

  lemma {:induction false} AtTail(data: string, d: string, k: nat)
    requires 1 <= k && data != ""
    ensures At(data, d, k) <==> At(data[1..], d, k - 1)
  {
    if k + |d| <= |data| {
      var a, b := data[k..k + |d|], data[1..][k - 1..k - 1 + |d|];
      forall i | 0 <= i < |d| ensures a[i] == b[i] {
        assert a[i] == data[k + i] && b[i] == data[1..][k - 1 + i];
      }
      assert a == b;
    }
  }

  /** The first position of d in data, or |data| + 1 when there is none. */
  function Find(data: string, d: string): (pos: nat)
    ensures pos <= |data| ==> At(data, d, pos)
    ensures forall k: nat | k < pos :: !At(data, d, k)
  {
    if At(data, d, 0) then 0
    else if |data| == 0 then 1
    else
      var rest := Find(data[1..], d);
      assert forall k: nat | 1 <= k :: At(data, d, k) <==> At(data[1..], d, k - 1) by {
        forall k: nat | 1 <= k ensures At(data, d, k) <==> At(data[1..], d, k - 1) { AtTail(data, d, k); }
      }
      rest + 1
  }

  /** data holds d somewhere. */
  predicate Holds(data: string, d: string) { Find(data, d) <= |data| }

  function Split(data: string, d: string): (pieces: seq<string>)
    requires d != ""
    ensures |pieces| >= 1
    decreases |data|
  {
    var pos := Find(data, d);
    if pos > |data| then [data] else [data[..pos]] + Split(data[pos + |d|..], d)
  }

  /** The loop: erase up to and including each delimiter. */
  method SplitString(data: string, delimiter: string) returns (v: seq<string>)
    requires delimiter != ""
    ensures v == Split(data, delimiter)
  {
    v := [];
    var rest := data;
    var pos := Find(rest, delimiter);
    while pos <= |rest|
      invariant pos == Find(rest, delimiter)
      invariant v + Split(rest, delimiter) == Split(data, delimiter)
      decreases |rest|
    {
      v := v + [rest[..pos]];
      rest := rest[pos + |delimiter|..];
      pos := Find(rest, delimiter);
    }
    v := v + [rest];
  }

  function Join(pieces: seq<string>, d: string): string {
    if |pieces| == 0 then "" else if |pieces| == 1 then pieces[0] else pieces[0] + d + Join(pieces[1..], d)
  }

  lemma {:induction false} SliceOfPrefix(data: string, n: nat, i: nat, j: nat)
    requires i <= j <= n <= |data|
    ensures data[..n][i..j] == data[i..j]
  {}

  lemma {:induction false} HeadFree(data: string, d: string)
    requires d != "" && Holds(data, d)
    ensures !Holds(data[..Find(data, d)], d)
  {
    var head := data[..Find(data, d)];
    forall k: nat ensures !At(head, d, k) {
      if k + |d| <= |head| {
        SliceOfPrefix(data, Find(data, d), k, k + |d|);
        assert At(head, d, k) == At(data, d, k);
      }
    }
  }

  lemma {:induction false} JoinMore(head: string, rest: seq<string>, d: string)
    requires |rest| >= 1
    ensures Join([head] + rest, d) == head + d + Join(rest, d)
  {
    assert ([head] + rest)[1..] == rest;
  }

  /** The pieces rejoin to the input, and none of them holds the delimiter. */
  lemma {:induction false} SplitRejoins(data: string, d: string)
    requires d != ""
    ensures Join(Split(data, d), d) == data
    ensures forall p | p in Split(data, d) :: !Holds(p, d)
    decreases |data|
  {
    hide Join, Find;
    var pos := Find(data, d);
    if pos > |data| {
      assert Join([data], d) == data by { JoinOne(data, d); }
    } else {
      var head, tail := data[..pos], data[pos + |d|..];
      SplitRejoins(tail, d);
      HeadFree(data, d);
      JoinMore(head, Split(tail, d), d);
      assert data == head + d + tail;
    }
  }

  lemma {:induction false} JoinOne(piece: string, d: string)
    ensures Join([piece], d) == piece
  {}

  /** A piece without the delimiter, followed by the delimiter, is split off as it is. */
  lemma {:induction false} SplitAfter(head: string, c: char, tail: string)
    requires c !in head
    ensures Split(head + [c] + tail, [c]) == [head] + Split(tail, [c])
  {
    var data := head + [c] + tail;
    assert At(data, [c], |head|);
    forall k: nat | k < |head| ensures !At(data, [c], k) {
      assert data[k] == head[k];
    }
    assert Find(data, [c]) == |head|;
    assert data[..|head|] == head && data[|head| + 1..] == tail;
  }

  lemma {:induction false} SplitNone(data: string, c: char)
    requires c !in data
    ensures Split(data, [c]) == [data]
  {
    forall k: nat ensures !At(data, [c], k) {
      if k < |data| { assert data[k] in data; }
    }
  }

  // ---- the file ----

  datatype Route = Route(channel: string, source: string, destination: string, flag: string)

  /** Space, newline, tab, carriage return, vertical tab, form feed. */
  predicate White(c: char) {
    c == ' ' || c == '\n' || c == '\t' || c == '\r' || c == '\U{0B}' || c == '\U{0C}'
  }

  /** No white space and none of the characters in out. */
  predicate Clean(s: string, out: string) { forall c | c in s :: !White(c) && c !in out }

  predicate CleanRoute(r: Route) {
    Clean(r.channel, ":") && Clean(r.source, ":>") && Clean(r.destination, ":>;") && Clean(r.flag, ":>;")
  }

  function Line(r: Route): string { r.channel + ":" + r.source + ">" + r.destination + ";" + r.flag }

  /** What appending one line after another makes of an empty file. */
  function FileOf(routes: seq<Route>): string {
    if |routes| == 0 then "" else FileOf(routes[..|routes| - 1]) + Line(routes[|routes| - 1]) + "\n"
  }

  /** The length of the longest beginning of s that has no (or only) white space. */
  function WordLength(s: string): (n: nat)
    ensures n <= |s| && (forall k | 0 <= k < n :: !White(s[k])) && (n < |s| ==> White(s[n]))
  {
    if |s| == 0 || White(s[0]) then 0 else 1 + WordLength(s[1..])
  }

  /** The words between white space, as the stream operator reads them. */
  function Words(s: string): seq<string>
    decreases |s|
  {
    if |s| == 0 then []
    else if White(s[0]) then Words(s[1..])
    else [s[..WordLength(s)]] + Words(s[WordLength(s)..])
  }

  /** The fields of one word; a word without its three delimiters would be read out of bounds. */
  function FieldsOf(word: string): (r: Route) {
    var byColon := Split(word, ":");
    if |byColon| < 2 then Route(byColon[0], "", "", "") else
    var byArrow := Split(byColon[1], ">");
    if |byArrow| < 2 then Route(byColon[0], byArrow[0], "", "") else
    var bySemi := Split(byArrow[1], ";");
    Route(byColon[0], byArrow[0], bySemi[0], if |bySemi| < 2 then "" else bySemi[1])
  }

  /** The last route of each channel among those for the destination. */
  function LastRoutes(routes: seq<Route>, destination: string): map<string, Route> {
    if |routes| == 0 then map[]
    else
      var init, last := routes[..|routes| - 1], routes[|routes| - 1];
      var m := LastRoutes(init, destination);
      if last.destination == destination then m[last.channel := last] else m
  }

  method ParseWord(word: string) returns (route: Route)
    ensures route == FieldsOf(word)
  {
    var channelNameSplit := SplitString(word, ":");
    route := Route(channelNameSplit[0], "", "", "");
    if |channelNameSplit| >= 2 {
      var channelSourceSplit := SplitString(channelNameSplit[1], ">");
      route := route.(source := channelSourceSplit[0]);
      if |channelSourceSplit| >= 2 {
        var channelDestSplit := SplitString(channelSourceSplit[1], ";");
        route := route.(destination := channelDestSplit[0],
            flag := if |channelDestSplit| < 2 then "" else channelDestSplit[1]);
      }
    }
  }

  function ParseAll(words: seq<string>): (routes: seq<Route>)
    ensures |routes| == |words| && forall i | 0 <= i < |words| :: routes[i] == FieldsOf(words[i])
  {
    if |words| == 0 then [] else [FieldsOf(words[0])] + ParseAll(words[1..])
  }

  /** ParseRoutingTable: reads word after word and keeps the routes for the destination. */
  method ParseRoutingTable(file: string, destination: string) returns (channel: map<string, Route>)
    ensures channel == LastRoutes(ParseAll(Words(file)), destination)
  {
    hide FieldsOf, Words, LastRoutes;
    channel := map[];
    var words := Words(file);
    NoRoutes(destination);
    ghost var all := ParseAll(words);
    for i := 0 to |words|
      invariant channel == LastRoutes(all[..i], destination)
    {
      var route := ParseWord(words[i]);
      assert all[..i + 1] == all[..i] + [route];
      LastOfOneMore(all[..i], route, destination);
      if route.destination == destination {
        channel := channel[route.channel := route];
      }
    }
    assert all[..|words|] == all;
  }

  lemma {:induction false} NoRoutes(destination: string)
    ensures LastRoutes([], destination) == map[]
  {}

  lemma {:induction false} LastOfOneMore(routes: seq<Route>, r: Route, destination: string)
    ensures LastRoutes(routes + [r], destination)
            == if r.destination == destination then LastRoutes(routes,
                destination)[r.channel := r] else LastRoutes(routes, destination)
  {
    assert (routes + [r])[..|routes|] == routes;
  }

  /** What is kept for a channel is the entry after which none for this channel and destination follows. */
  lemma {:induction false} KeptIsLast(routes: seq<Route>, destination: string, c: string) returns (i: nat)
    requires c in LastRoutes(routes, destination)
    ensures i < |routes| && routes[i] == LastRoutes(routes, destination)[c] && routes[i].channel == c
             && routes[i].destination == destination
    ensures forall j | i < j < |routes| :: !(routes[j].channel == c && routes[j].destination == destination)
    decreases |routes|
  {
    var init, last := routes[..|routes| - 1], routes[|routes| - 1];
    assert routes == init + [last];
    LastOfOneMore(init, last, destination);
    hide LastRoutes;
    if last.channel == c && last.destination == destination {
      i := |routes| - 1;
    } else {
      i := KeptIsLast(init, destination, c);
      assert forall j | 0 <= j < |init| :: routes[j] == init[j];
    }
  }

  /** Something is kept for a channel if and only if there is an entry for it and this destination. */
  lemma {:induction false} KeptIff(routes: seq<Route>, destination: string, c: string)
    ensures c in LastRoutes(routes, destination)
            <==> exists i: nat :: i < |routes| && routes[i].channel == c && routes[i].destination == destination
    decreases |routes|
  {
    if |routes| != 0 {
      var init, last := routes[..|routes| - 1], routes[|routes| - 1];
      assert routes == init + [last];
      KeptIff(init, destination, c);
      LastOfOneMore(init, last, destination);
      hide LastRoutes;
      if i: nat :| i < |init| && init[i].channel == c && init[i].destination == destination {
        assert routes[i] == init[i];
      }
    }
  }

  /** The characters that end a word. */
  lemma {:induction false} WhiteSpace(c: char)
    ensures White(c) <==> c in " \n\t\r\U{0B}\U{0C}"
  {}

  lemma {:induction false} FileOfTwo(one: Route, two: Route)
    ensures FileOf([one, two]) == Line(one) + "\n" + Line(two) + "\n"
  {
    hide Line;
    assert [one, two][..1] == [one] && [one][..0] == [] && FileOf([]) == "";
    assert FileOf([one]) == "" + Line(one) + "\n" == Line(one) + "\n";
  }

  lemma {:induction false} LineExamples()
    ensures Line(Route("p-c", "a", "b", "")) == "p-c:a>b;"
    ensures Line(Route("p-c", "p", "c", "source")) == "p-c:p>c;source"
  {}

  /** Two lines as they stand in the file. */
  lemma {:induction false} TwoLines()
    ensures FileOf([Route("p-c", "a", "b", ""), Route("p-c", "p", "c", "source")]) == "p-c:a>b;\np-c:p>c;source\n"
  {
    hide *;
    FileOfTwo(Route("p-c", "a", "b", ""), Route("p-c", "p", "c", "source"));
    LineExamples();
    assert "p-c:a>b;" + "\n" + "p-c:p>c;source" + "\n" == "p-c:a>b;\np-c:p>c;source\n";
  }

  // ---- reading back what was written ----

  lemma {:induction false} FieldsOfLine(r: Route)
    requires CleanRoute(r)
    ensures FieldsOf(Line(r)) == r
  {
    var afterColon := r.source + ">" + r.destination + ";" + r.flag;
    var afterArrow := r.destination + ";" + r.flag;
    hide Split;
    assert Line(r) == r.channel + ":" + afterColon;
    SplitAfter(r.channel, ':', afterColon);
    SplitNone(afterColon, ':');
    assert afterColon == r.source + ">" + afterArrow;
    SplitAfter(r.source, '>', afterArrow);
    SplitNone(afterArrow, '>');
    SplitAfter(r.destination, ';', r.flag);
    SplitNone(r.flag, ';');
  }

  lemma {:induction false} WordsOfLine(word: string, rest: string)
    requires word != "" && forall c | c in word :: !White(c)
    ensures Words(word + "\n" + rest) == [word] + Words(rest)
  {
    var s := word + "\n" + rest;
    assert forall k | 0 <= k < |word| :: s[k] == word[k];
    assert s[|word|] == '\n';
    assert WordLength(s) == |word|;
    assert s[..|word|] == word;
    assert s[|word|..][1..] == rest;
  }

  lemma {:induction false} LineIsWord(r: Route)
    requires CleanRoute(r)
    ensures Line(r) != "" && forall c | c in Line(r) :: !White(c)
  {}

  /** Nothing but white space stands between the last word and the end. */
  predicate Ended(file: string) { file == "" || White(file[|file| - 1]) }

  lemma {:induction false} LongerWord(a: string, b: string)
    requires a != "" && Ended(a) && !White(a[0])
    ensures WordLength(a) < |a| && WordLength(a + b) == WordLength(a)
  {
    var n := WordLength(a);
    assert White(a[|a| - 1]);
    assert forall k | 0 <= k < n :: (a + b)[k] == a[k];
    assert (a + b)[n] == a[n];
  }

  lemma {:induction false} WordsConcat(a: string, b: string)
    requires Ended(a)
    ensures Words(a + b) == Words(a) + Words(b)
    decreases |a|
  {
    if a == "" {
      assert a + b == b;
    } else if White(a[0]) {
      assert (a + b)[1..] == a[1..] + b;
      WordsConcat(a[1..], b);
    } else {
      hide WordLength;
      LongerWord(a, b);
      var n := WordLength(a);
      assert (a + b)[..n] == a[..n] && (a + b)[n..] == a[n..] + b;
      assert n != 0 by { WordStarts(a); }
      WordsConcat(a[n..], b);
    }
  }

  lemma {:induction false} WordStarts(s: string)
    requires s != "" && !White(s[0])
    ensures WordLength(s) != 0
  {}

  lemma {:induction false} ParseConcat(a: seq<string>, b: seq<string>)
    ensures ParseAll(a + b) == ParseAll(a) + ParseAll(b)
  {
    hide FieldsOf;
    var all := ParseAll(a) + ParseAll(b);
    forall i | 0 <= i < |a + b| ensures all[i] == FieldsOf((a + b)[i]) {}
  }

  lemma {:induction false} WordsOfWords(s: string)
    ensures forall w, c | w in Words(s) && c in w :: !White(c)
    decreases |s|
  {
    if s != "" {
      if White(s[0]) { WordsOfWords(s[1..]); } else { WordStarts(s); WordsOfWords(s[WordLength(s)..]); }
    }
  }

  lemma {:induction false} PiecesWithin(data: string, d: char, k: nat)
    requires k < |Split(data, [d])|
    ensures forall c | c in Split(data, [d])[k] :: c in data && c != d
    decreases |data|
  {
    var pos := Find(data, [d]);
    if pos > |data| || k == 0 {
      var p := Split(data, [d])[0];
      forall i | 0 <= i < |p| ensures p[i] in data && p[i] != d {
        assert p[i] == data[i] && !At(data, [d], i);
        assert data[i..i + 1] == [data[i]];
      }
    } else {
      PiecesWithin(data[pos + 1..], d, k - 1);
    }
  }

  /** Whatever the word, its fields come out clean. */
  lemma {:induction false} FieldsClean(word: string)
    requires forall c | c in word :: !White(c)
    ensures CleanRoute(FieldsOf(word))
  {
    hide Split, White;
    var byColon := Split(word, ":");
    PiecesWithin(word, ':', 0);
    if |byColon| >= 2 {
      PiecesWithin(word, ':', 1);
      var byArrow := Split(byColon[1], ">");
      PiecesWithin(byColon[1], '>', 0);
      if |byArrow| >= 2 {
        PiecesWithin(byColon[1], '>', 1);
        PiecesWithin(byArrow[1], ';', 0);
        if |Split(byArrow[1], ";")| >= 2 { PiecesWithin(byArrow[1], ';', 1); }
      }
    }
  }

  /** A line added to a file is read back as its route, after all that was read before, if and only if
      the fields are clean. */
  lemma {:induction false} ReadBackIff(file: string, r: Route)
    requires Ended(file)
    ensures ParseAll(Words(file + Line(r) + "\n")) == ParseAll(Words(file)) + [r] <==> CleanRoute(r)
  {
    hide Words, FieldsOf, Line, CleanRoute;
    var line := Line(r) + "\n";
    assert file + Line(r) + "\n" == file + line;
    WordsConcat(file, line);
    ParseConcat(Words(file), Words(line));
    if CleanRoute(r) {
      LineIsWord(r);
      WordsOfLine(Line(r), "");
      NoWords();
      assert line + "" == line;
      FieldsOfLine(r);
      assert ParseAll(Words(line)) == [r];
    } else if ParseAll(Words(file)) + ParseAll(Words(line)) == ParseAll(Words(file)) + [r] {
      assert (ParseAll(Words(file)) + ParseAll(Words(line)))[|Words(file)|..] == ParseAll(Words(line));
      assert ParseAll(Words(line)) == [r];
      WordsOfWords(line);
      assert Words(line)[0] in Words(line);
      FieldsClean(Words(line)[0]);
      assert false;
    }
  }

  lemma {:induction false} NoWords()
    ensures Words("") == []
  {}

  /** UpdateRoutingTable appends one line: a reader then finds the routes it found before and this one,
      if and only if the names are clean, and the file can be added to again. */
  method UpdateRoutingTable(file: string, channel: string, upstream: string, downstream: string, sourceSinkFlag: bool)
      returns (file': string)
    ensures var r := Route(channel, upstream, downstream, if sourceSinkFlag then "source" else "");
            && file' == file + Line(r) + "\n" && Ended(file')
            && (Ended(file) ==> (ParseAll(Words(file')) == ParseAll(Words(file)) + [r] <==> CleanRoute(r)))
  {
    hide Words, ParseAll, CleanRoute;
    var sourceSink := "";
    if sourceSinkFlag { sourceSink := "source"; }
    var data := channel + ":" + upstream + ">" + downstream + ";" + sourceSink;
    file' := file + data + "\n";
    if Ended(file) { ReadBackIff(file, Route(channel, upstream, downstream, sourceSink)); }
  }

  lemma {:induction false} WrittenIsRead(routes: seq<Route>)
    requires forall r | r in routes :: CleanRoute(r)
    ensures Ended(FileOf(routes)) && ParseAll(Words(FileOf(routes))) == routes
    decreases |routes|
  {
    if |routes| != 0 {
      hide Words, ParseAll, CleanRoute, Line;
      var init, last := routes[..|routes| - 1], routes[|routes| - 1];
      WrittenIsRead(init);
      ReadBackIff(FileOf(init), last);
    } else {
      NoWords();
    }
  }

  /** Parsing a table that any sequence of updates has built gives, for a destination, exactly the last
      route written per channel. */
  lemma {:induction false} ParsesWhatWasWritten(routes: seq<Route>, destination: string)
    requires forall r | r in routes :: CleanRoute(r)
    ensures LastRoutes(ParseAll(Words(FileOf(routes))), destination) == LastRoutes(routes, destination)
  {
    WrittenIsRead(routes);
  }
}
