/** The non-graphical bookkeeping of the step that morphs the word cloud into
    the displayed tweet: its skip rule, the data providers it declares, the
    reuse of cloud words for the tweet's words, the lower-left corner the
    info box is placed at, and the cap on media images. */
module CloudToTweet {
  import opened Wrappers

  // ---------------------------------------------------------------------
  // Data providers and the machine context
  // ---------------------------------------------------------------------

  datatype DataProviderKind =
    | TweetDataProvider
    | PhotoImageMediaEntryDataProvider
    | TweetUserProfileImageDataProvider
    | OtherDataProvider(className: string)

  datatype User = User(name: string, screenName: string)
  datatype MediaEntry = MediaEntry(id: int)
  datatype Image = Image(id: int)

  datatype TweetData = TweetData(id: int, user: User, mediaEntries: seq<MediaEntry>)

  /** A tweet as the tweet data provider hands it out: its own data and the
      data of its origin tweet (the tweet it retweets, or itself). */
  datatype Tweet = Tweet(data: TweetData, originTweet: TweetData)

  /** What the step reads from the machine context: the kinds of the data
      providers registered with it, the tweet data provider's current tweet
      (None for null), and the images the two image providers return. */
  datatype MachineContext = MachineContext(
    dataProviders: set<DataProviderKind>,
    currentTweet: Option<Tweet>,
    mediaImage: MediaEntry -> Image,
    profileImage: User -> Image)

  datatype Duration = Duration(seconds: int, nanos: int)

  /** FactoryImpl.getRequiredDataProviders. */
  function RequiredDataProviders(): (r: seq<DataProviderKind>)
    ensures |r| == 3
    ensures forall k :: k in r <==>
      k == TweetDataProvider || k == PhotoImageMediaEntryDataProvider || k == TweetUserProfileImageDataProvider
  {
    [TweetDataProvider, PhotoImageMediaEntryDataProvider, TweetUserProfileImageDataProvider]
  }

  /** The engine has registered every provider the step declares. */
  predicate Wired(ctx: MachineContext)
  {
    forall k :: k in RequiredDataProviders() ==> k in ctx.dataProviders
  }

  /** shouldSkip: the step is skipped exactly when there is no tweet to show. */
  function ShouldSkip(ctx: MachineContext): (skip: bool)
    requires forall k :: k in ShouldSkipLookups() ==> k in ctx.dataProviders
    ensures skip <==> ctx.currentTweet.None?
  {
    ctx.currentTweet == None
  }

  /** preferredStepDuration: five seconds, whatever the context. */
  function PreferredStepDuration(ctx: MachineContext): (d: Duration)
    ensures d.seconds == 5 && d.nanos == 0
  {
    Duration(5, 0)
  }

  /** The provider lookups shouldSkip performs. */
  function ShouldSkipLookups(): seq<DataProviderKind>
  {
    [TweetDataProvider]
  }

  /** The provider lookups doStep performs, in order: the tweet, the profile
      image for the info box and, only when there are media entries, the
      media images. */
  function DoStepLookups(hasMedia: bool): seq<DataProviderKind>
  {
    [TweetDataProvider, TweetUserProfileImageDataProvider]
      + (if hasMedia then [PhotoImageMediaEntryDataProvider] else [])
  }

  /** Every lookup the step performs is for a declared provider, and every
      declared provider is looked up on some path. */
  lemma LookupsAreDeclared(hasMedia: bool)
    ensures forall k :: k in ShouldSkipLookups() + DoStepLookups(hasMedia) ==> k in RequiredDataProviders()
    ensures forall k :: k in RequiredDataProviders() ==> k in ShouldSkipLookups() + DoStepLookups(true)
    ensures forall ctx :: Wired(ctx) ==> forall k :: k in DoStepLookups(hasMedia) ==> k in ctx.dataProviders
  {
  }

  // ---------------------------------------------------------------------
  // Words
  // ---------------------------------------------------------------------

  /** The characters String.trim removes: code points up to U+0020. */
  predicate IsTrimmed(c: char)
  {
    c <= ' '
  }

  /** The suffix of `s` that starts at its first character above U+0020. */
  function TrimStart(s: string): (r: string)
    ensures |r| <= |s|
    ensures r == [] || !IsTrimmed(r[0])
  {
    if s != [] && IsTrimmed(s[0]) then TrimStart(s[1..]) else s
  }

  /** The prefix of `s` that ends at its last character above U+0020. */
  function TrimEnd(s: string): (r: string)
    ensures |r| <= |s|
    ensures r == [] || !IsTrimmed(r[|r| - 1])
    ensures r == [] || (s != [] && r[0] == s[0])
  {
    if s != [] && IsTrimmed(s[|s| - 1]) then TrimEnd(s[..|s| - 1]) else s
  }

  /** String.trim: the substring from the first to the last character above
      U+0020, empty when there is none. */
  function Trim(s: string): (r: string)
    ensures |r| <= |s|
    ensures r == [] || (!IsTrimmed(r[0]) && !IsTrimmed(r[|r| - 1]))
  {
    TrimEnd(TrimStart(s))
  }

  /** TrimStart drops exactly the leading characters up to U+0020. */
  lemma {:induction false} TrimStartIsSuffix(s: string)
    ensures var r := TrimStart(s);
      && r == s[|s| - |r|..]
      && forall j :: 0 <= j < |s| - |r| ==> IsTrimmed(s[j])
  {
    if s != [] && IsTrimmed(s[0]) {
      TrimStartIsSuffix(s[1..]);
    }
  }

  /** TrimEnd drops exactly the trailing characters up to U+0020. */
  lemma {:induction false} TrimEndIsPrefix(s: string)
    ensures var r := TrimEnd(s);
      && r == s[..|r|]
      && forall j :: |r| <= j < |s| ==> IsTrimmed(s[j])
  {
    if s != [] && IsTrimmed(s[|s| - 1]) {
      TrimEndIsPrefix(s[..|s| - 1]);
    }
  }

  /** Trim keeps the substring `s[a..b]` and drops only characters up to
      U+0020 outside it; as neither end of a non-empty result is such a
      character, `a` and `b` are the first and one past the last character
      above U+0020. */
  lemma TrimIsSubstring(s: string) returns (a: nat, b: nat)
    ensures a <= b <= |s| && Trim(s) == s[a..b]
    ensures forall j :: 0 <= j < a ==> IsTrimmed(s[j])
    ensures forall j :: b <= j < |s| ==> IsTrimmed(s[j])
  {
    var t := TrimStart(s);
    TrimStartIsSuffix(s);
    TrimEndIsPrefix(t);
    a := |s| - |t|;
    b := a + |Trim(s)|;
    assert forall j :: b <= j < |s| ==> s[j] == t[j - a];
  }

  // ---------------------------------------------------------------------
  // Layout (its arithmetic is not modelled)
  // ---------------------------------------------------------------------

  datatype Point = Point(x: real, y: real)
  datatype Bounds = Bounds(minX: real, minY: real, width: real, height: real)

  /** A word of the tweet and its bounds, as the tweet layout gives it. */
  datatype TweetWord = TweetWord(text: string, bounds: Bounds)

  /** The tweet layout: its words in layout order and its two placement
      functions, tweetWordLineOffset(bounds, lowerLeft, width, lineOffset)
      and layoutTweetWord(bounds, minPos, lineOffset). */
  datatype TweetLayout = TweetLayout(
    wordLayoutInfo: seq<TweetWord>,
    tweetWordLineOffset: (Bounds, Point, real, Point) -> Point,
    layoutTweetWord: (Bounds, Point, Point) -> Point)

  /** A text node on the pane: one taken over from the cloud, or one created
      for the word at a position of the layout. */
  datatype TextNode = CloudText(id: int) | CreatedText(text: string, position: nat)

  datatype TweetWordNode = TweetWordNode(tweetWord: TweetWord, textNode: TextNode)

  /** The first layout word whose trimmed text is `text` (the stream lookup
      of the bounds of a reused word). */
  function FindFirst(words: seq<TweetWord>, text: string): (r: Option<TweetWord>)
    ensures r.Some? ==> r.value in words && Trim(r.value.text) == text
  {
    if words == [] then None
    else if Trim(words[0].text) == text then Some(words[0])
    else FindFirst(words[1..], text)
  }

  /** The trimmed text of every layout word, in layout order: the keys the
      loop looks the cloud map up with. */
  function TrimmedTexts(words: seq<TweetWord>): (keys: seq<string>)
    ensures |keys| == |words|
    ensures forall i :: 0 <= i < |words| ==> keys[i] == Trim(words[i].text)
  {
    seq(|words|, i requires 0 <= i < |words| => Trim(words[i].text))
  }

  /** The keys of the first `n` layout words. */
  function TextsBefore(keys: seq<string>, n: nat): set<string>
    requires n <= |keys|
  {
    set j | 0 <= j < n :: keys[j]
  }

  lemma {:induction false} FindFirstFindsFirstOccurrence(words: seq<TweetWord>, i: nat)
    requires i < |words|
    ensures FindFirst(words, Trim(words[i].text)).Some?
    ensures (forall j :: 0 <= j < i ==> Trim(words[j].text) != Trim(words[i].text)) ==>
      FindFirst(words, Trim(words[i].text)) == Some(words[i])
  {
    if i > 0 && Trim(words[0].text) != Trim(words[i].text) {
      FindFirstFindsFirstOccurrence(words[1..], i - 1);
      assert words[1..][i - 1] == words[i];
      if forall j :: 0 <= j < i ==> Trim(words[j].text) != Trim(words[i].text) {
        forall j | 0 <= j < i - 1 ensures Trim(words[1..][j].text) != Trim(words[i].text) {
          assert words[1..][j] == words[j + 1];
        }
      }
    }
  }

  // ---------------------------------------------------------------------
  // The word bookkeeping of doStep, as functions of the layout
  // ---------------------------------------------------------------------

  /** Which node each word of doStep's loop is shown with: the cloud map
      still to be taken over, the entries appended to the tweet word list,
      the reused cloud nodes (which move) and the created nodes (which fade
      in). */
  datatype Assignment = Assignment(
    cloud: map<string, TextNode>,
    added: seq<TweetWordNode>,
    moved: seq<TextNode>,
    created: seq<TextNode>)

  /** Where doStep's loop places the words: the lower-left corner, the tweet
      line offset and the position computed for each word. */
  datatype Placement = Placement(lowerLeft: Point, tweetLineOffset: Point, placed: seq<Point>)

  /** The node assignment for layout word `i`, whose key is `keys[i]`. */
  function AssignStep(st: Assignment, words: seq<TweetWord>, keys: seq<string>, i: nat): (r: Assignment)
    requires i < |words| == |keys|
  {
    var text := keys[i];
    if text in st.cloud then
      Assignment(st.cloud - {text}, st.added + [TweetWordNode(words[i], st.cloud[text])],
                 st.moved + [st.cloud[text]], st.created)
    else
      Assignment(st.cloud, st.added + [TweetWordNode(words[i], CreatedText(text, i))],
                 st.moved, st.created + [CreatedText(text, i)])
  }

  /** The node assignment after the first `n` layout words. */
  function Assign(cloud: map<string, TextNode>, words: seq<TweetWord>, keys: seq<string>, n: nat): (r: Assignment)
    requires n <= |words| == |keys|
  {
    if n == 0 then Assignment(cloud, [], [], [])
    else AssignStep(Assign(cloud, words, keys, n - 1), words, keys, n - 1)
  }

  /** `lowerLeft` moved down to the word position `p` when `p` is lower. */
  function Lowered(lowerLeft: Point, p: Point): (r: Point)
  {
    if p.y > lowerLeft.y then Point(lowerLeft.x + 0.0, lowerLeft.y + (p.y - lowerLeft.y)) else lowerLeft
  }

  /** The placement of layout word `i`, laid out with its own bounds (for a
      word that takes over a cloud node, the bounds the loop looks up by text
      are these: ReusedWordLooksUpItsOwnBounds). */
  function PlaceStep(pl: Placement, layout: TweetLayout, minPos: Point, width: real, i: nat): (r: Placement)
    requires i < |layout.wordLayoutInfo|
  {
    var bounds := layout.wordLayoutInfo[i].bounds;
    var offset := layout.tweetWordLineOffset(bounds, pl.lowerLeft, width, pl.tweetLineOffset);
    var p := layout.layoutTweetWord(bounds, minPos, offset);
    Placement(Lowered(pl.lowerLeft, p), offset, pl.placed + [p])
  }

  /** The placement after the first `n` layout words. */
  function Place(layout: TweetLayout, minPos: Point, width: real, n: nat): (r: Placement)
    requires n <= |layout.wordLayoutInfo|
  {
    if n == 0 then Placement(Point(minPos.x, minPos.y), Point(0.0, 0.0), [])
    else PlaceStep(Place(layout, minPos, width, n - 1), layout, minPos, width, n - 1)
  }

  /** The lower-left corner moves down to a lower word and keeps its x: its
      new y is the larger of its old y and the word's. */
  lemma LoweredIsLower(lowerLeft: Point, p: Point)
    ensures Lowered(lowerLeft, p).x == lowerLeft.x
    ensures Lowered(lowerLeft, p).y >= lowerLeft.y && Lowered(lowerLeft, p).y >= p.y
    ensures Lowered(lowerLeft, p).y == lowerLeft.y || Lowered(lowerLeft, p).y == p.y
  {
  }

  /** Word `i` takes over a cloud node: its key is in the cloud and occurs
      at no earlier word. */
  ghost predicate ReusedAt(cloud: map<string, TextNode>, keys: seq<string>, i: nat)
    requires i < |keys|
  {
    keys[i] in cloud && keys[i] !in TextsBefore(keys, i)
  }

  /** The node word `i` is shown with. */
  ghost function ExpectedNode(cloud: map<string, TextNode>, keys: seq<string>, i: nat): TextNode
    requires i < |keys|
  {
    if ReusedAt(cloud, keys, i) then cloud[keys[i]] else CreatedText(keys[i], i)
  }

  /** The cloud map loses exactly the keys of the words processed so far. */
  lemma {:induction false} AssignCloud(cloud: map<string, TextNode>, words: seq<TweetWord>, keys: seq<string>, n: nat)
    requires n <= |words| == |keys|
    ensures Assign(cloud, words, keys, n).cloud == cloud - TextsBefore(keys, n)
  {
    if n == 0 {
      assert TextsBefore(keys, 0) == {};
    } else {
      AssignCloud(cloud, words, keys, n - 1);
      assert TextsBefore(keys, n) == TextsBefore(keys, n - 1) + {keys[n - 1]};
    }
  }

  /** One entry per layout word, in layout order, each with the node the
      word is shown with; every word's node either moves or fades in. */
  lemma {:induction false} AssignAdded(cloud: map<string, TextNode>, words: seq<TweetWord>, keys: seq<string>, n: nat)
    requires n <= |words| == |keys|
    ensures |Assign(cloud, words, keys, n).added| == n
    ensures forall i :: 0 <= i < n ==>
      Assign(cloud, words, keys, n).added[i] == TweetWordNode(words[i], ExpectedNode(cloud, keys, i))
    ensures |Assign(cloud, words, keys, n).moved| + |Assign(cloud, words, keys, n).created| == n
  {
    if n > 0 {
      var prev := Assign(cloud, words, keys, n - 1);
      var next := Assign(cloud, words, keys, n);
      AssignAdded(cloud, words, keys, n - 1);
      AssignCloud(cloud, words, keys, n - 1);
      assert (keys[n - 1] in prev.cloud) == ReusedAt(cloud, keys, n - 1);
      forall i | 0 <= i < n
        ensures next.added[i] == TweetWordNode(words[i], ExpectedNode(cloud, keys, i))
      {
        if i < n - 1 {
          assert next.added[i] == prev.added[i];
        }
      }
    }
  }

  /** The cloud nodes that move, in layout order: the node of each word that
      takes one over. */
  ghost function MovedNodes(cloud: map<string, TextNode>, keys: seq<string>, n: nat): (r: seq<TextNode>)
    requires n <= |keys|
    ensures |r| <= n
  {
    if n == 0 then []
    else MovedNodes(cloud, keys, n - 1) + (if ReusedAt(cloud, keys, n - 1) then [cloud[keys[n - 1]]] else [])
  }

  /** The nodes created for the other words, which fade in, in layout order. */
  ghost function CreatedNodes(cloud: map<string, TextNode>, keys: seq<string>, n: nat): (r: seq<TextNode>)
    requires n <= |keys|
    ensures |r| <= n
  {
    if n == 0 then []
    else CreatedNodes(cloud, keys, n - 1) + (if ReusedAt(cloud, keys, n - 1) then [] else [CreatedText(keys[n - 1], n - 1)])
  }

  /** The moves and fade-ins of doStep's loop are the reused cloud nodes and
      the created nodes, each in layout order. */
  lemma {:induction false} AssignMovedAndCreated(cloud: map<string, TextNode>, words: seq<TweetWord>, keys: seq<string>, n: nat)
    requires n <= |words| == |keys|
    ensures Assign(cloud, words, keys, n).moved == MovedNodes(cloud, keys, n)
    ensures Assign(cloud, words, keys, n).created == CreatedNodes(cloud, keys, n)
  {
    if n > 0 {
      AssignMovedAndCreated(cloud, words, keys, n - 1);
      AssignCloud(cloud, words, keys, n - 1);
      assert (keys[n - 1] in Assign(cloud, words, keys, n - 1).cloud) == ReusedAt(cloud, keys, n - 1);
    }
  }

  /** Every word's node either moves (a reused cloud node) or fades in (a
      created node), and nothing else moves or fades in. */
  lemma {:induction false} MovedOrCreated(cloud: map<string, TextNode>, keys: seq<string>, n: nat)
    requires n <= |keys|
    ensures |MovedNodes(cloud, keys, n)| + |CreatedNodes(cloud, keys, n)| == n
    ensures forall i :: 0 <= i < n && ReusedAt(cloud, keys, i) ==> cloud[keys[i]] in MovedNodes(cloud, keys, n)
    ensures forall i :: 0 <= i < n && !ReusedAt(cloud, keys, i) ==> CreatedText(keys[i], i) in CreatedNodes(cloud, keys, n)
    ensures forall x :: x in MovedNodes(cloud, keys, n) ==>
      exists i :: 0 <= i < n && ReusedAt(cloud, keys, i) && x == cloud[keys[i]]
    ensures forall x :: x in CreatedNodes(cloud, keys, n) ==>
      exists i :: 0 <= i < n && !ReusedAt(cloud, keys, i) && x == CreatedText(keys[i], i)
  {
    if n > 0 {
      MovedOrCreated(cloud, keys, n - 1);
    }
  }

  /** A word that takes over a cloud node is laid out with its own bounds:
      looking its text up again finds the word itself. */
  lemma ReusedWordLooksUpItsOwnBounds(cloud: map<string, TextNode>, words: seq<TweetWord>, i: nat)
    requires i < |words|
    requires Trim(words[i].text) in Assign(cloud, words, TrimmedTexts(words), i).cloud
    ensures FindFirst(words, Trim(words[i].text)) == Some(words[i])
  {
    var keys := TrimmedTexts(words);
    AssignCloud(cloud, words, keys, i);
    forall j | 0 <= j < i ensures Trim(words[j].text) != Trim(words[i].text) {
      assert keys[j] in TextsBefore(keys, i);
    }
    FindFirstFindsFirstOccurrence(words, i);
  }

  /** A cloud entry is taken over by at most one word, and a word whose key
      occurred earlier in the layout gets a node of its own. */
  lemma EachCloudEntryReusedOnce(cloud: map<string, TextNode>, keys: seq<string>)
    ensures forall i, j :: 0 <= i < j < |keys| && ReusedAt(cloud, keys, i) && ReusedAt(cloud, keys, j) ==>
      keys[i] != keys[j]
    ensures forall i, j :: 0 <= j < i < |keys| && keys[j] == keys[i] ==>
      ExpectedNode(cloud, keys, i) == CreatedText(keys[i], i)
  {
    forall i, j | 0 <= j < i < |keys| && keys[j] == keys[i]
      ensures keys[i] in TextsBefore(keys, i)
    {
    }
  }

  /** The largest y among `y0` and the computed positions. */
  function MaxY(y0: real, ps: seq<Point>): (m: real)
    ensures m >= y0 && forall i :: 0 <= i < |ps| ==> m >= ps[i].y
    ensures m == y0 || exists i :: 0 <= i < |ps| && m == ps[i].y
  {
    if ps == [] then y0
    else
      var rest := MaxY(y0, ps[..|ps| - 1]);
      var last := ps[|ps| - 1];
      assert forall i :: 0 <= i < |ps| - 1 ==> ps[..|ps| - 1][i] == ps[i];
      if last.y > rest then last.y else rest
  }

  /** The lower-left corner keeps its x and ends at the largest y among its
      initial y and every computed word position. */
  lemma {:induction false} PlaceLowerLeft(layout: TweetLayout, minPos: Point, width: real, n: nat)
    requires n <= |layout.wordLayoutInfo|
    ensures |Place(layout, minPos, width, n).placed| == n
    ensures Place(layout, minPos, width, n).lowerLeft.x == minPos.x
    ensures Place(layout, minPos, width, n).lowerLeft.y == MaxY(minPos.y, Place(layout, minPos, width, n).placed)
  {
    if n > 0 {
      PlaceLowerLeft(layout, minPos, width, n - 1);
      var ps := Place(layout, minPos, width, n).placed;
      assert ps[..|ps| - 1] == Place(layout, minPos, width, n - 1).placed;
    }
  }

  /** The lower-left corner never moves up. */
  lemma {:induction false} LowerLeftNeverRises(layout: TweetLayout, minPos: Point, width: real, m: nat, n: nat)
    requires m <= n <= |layout.wordLayoutInfo|
    ensures Place(layout, minPos, width, m).lowerLeft.y <= Place(layout, minPos, width, n).lowerLeft.y
  {
    if m < n {
      LowerLeftNeverRises(layout, minPos, width, m, n - 1);
    }
  }

  // ---------------------------------------------------------------------
  // The media box
  // ---------------------------------------------------------------------

  /** At most this many media images are loaded. */
  const MaxMediaImages: int := 3

  function Min(a: int, b: int): int
  {
    if a < b then a else b
  }

  /** `box` is what createMediaBox produces for `entries`: nothing when there
      are no entries, otherwise the images of the first min(3, n) entries. */
  ghost predicate IsMediaBoxFor(box: Option<seq<Image>>, entries: seq<MediaEntry>, image: MediaEntry -> Image)
  {
    && (box.None? <==> |entries| == 0)
    && (box.Some? ==>
          && |box.value| == Min(MaxMediaImages, |entries|)
          && forall i :: 0 <= i < |box.value| ==> box.value[i] == image(entries[i]))
  }

  /** createMediaBox: the images shown for the origin tweet's media. */
  method CreateMediaBox(displayTweet: Tweet, ctx: MachineContext) returns (box: Option<seq<Image>>)
    requires |displayTweet.originTweet.mediaEntries| > 0 ==> PhotoImageMediaEntryDataProvider in ctx.dataProviders
    ensures IsMediaBoxFor(box, displayTweet.originTweet.mediaEntries, ctx.mediaImage)
  {
    var originalTweet := displayTweet.originTweet;
    var entries := originalTweet.mediaEntries;
    if |entries| > 0 {
      var imageCount := Min(MaxMediaImages, |entries|);
      var children: seq<Image> := [];
      for i := 0 to imageCount
        invariant |children| == i
        invariant forall j :: 0 <= j < i ==> children[j] == ctx.mediaImage(entries[j])
      {
        children := children + [ctx.mediaImage(entries[i])];
      }
      box := Some(children);
    } else {
      box := None;
    }
  }

  // ---------------------------------------------------------------------
  // doStep
  // ---------------------------------------------------------------------

  datatype InfoBox = InfoBox(position: Point, profileImage: Image)

  /** The word-node transitions doStep plays: the cloud nodes that fade out
      (by their text), the reused nodes that move and the created nodes that
      fade in. The info box's and the media box's fade-ins are not part of it. */
  datatype Morph = Morph(fadeOuts: map<string, TextNode>, moves: seq<TextNode>, fadeIns: seq<TextNode>)

  /** The parts of the word-cloud skin the step updates. */
  class WordleSkin {
    var word2TextMap: map<string, TextNode>
    var tweetWordList: seq<TweetWordNode>
    var infoBox: Option<InfoBox>
    var mediaBox: Option<seq<Image>>

    constructor (cloud: map<string, TextNode>)
      ensures word2TextMap == cloud && tweetWordList == [] && infoBox == None && mediaBox == None
    {
      word2TextMap := cloud;
      tweetWordList := [];
      infoBox := None;
      mediaBox := None;
    }
  }

  /** One iteration of doStep's loop, for layout word `i`: the word takes
      over the cloud node of its trimmed text (which leaves the cloud map) or
      gets a node of its own, is appended to the tweet word list, and may
      lower the lower-left corner. Before it the state is that of the words
      before `i`, starting from the cloud map `cloud` and the tweet word list
      `list`; after it, that of the words up to and including `i`. */
  method PlaceWord(skin: WordleSkin, layout: TweetLayout, minPos: Point, width: real, i: nat,
                   lowerLeft: Point, tweetLineOffset: Point, moves: seq<TextNode>, fadeIns: seq<TextNode>,
                   ghost cloud: map<string, TextNode>, ghost list: seq<TweetWordNode>)
    returns (newMoves: seq<TextNode>, newFadeIns: seq<TextNode>, newLowerLeft: Point, newLineOffset: Point)
    requires i < |layout.wordLayoutInfo|
    requires var asg := Assign(cloud, layout.wordLayoutInfo, TrimmedTexts(layout.wordLayoutInfo), i);
      && asg.cloud == skin.word2TextMap && asg.moved == moves && asg.created == fadeIns
      && skin.tweetWordList == list + asg.added
    requires var pl := Place(layout, minPos, width, i);
      pl.lowerLeft == lowerLeft && pl.tweetLineOffset == tweetLineOffset
    modifies skin
    ensures var asg := Assign(cloud, layout.wordLayoutInfo, TrimmedTexts(layout.wordLayoutInfo), i + 1);
      && asg.cloud == skin.word2TextMap && asg.moved == newMoves && asg.created == newFadeIns
      && skin.tweetWordList == list + asg.added
    ensures var pl := Place(layout, minPos, width, i + 1);
      pl.lowerLeft == newLowerLeft && pl.tweetLineOffset == newLineOffset
    ensures skin.infoBox == old(skin.infoBox) && skin.mediaBox == old(skin.mediaBox)
  {
    var words := layout.wordLayoutInfo;
    ghost var keys := TrimmedTexts(words);
    ghost var asg := Assign(cloud, words, keys, i);
    ghost var pl := Place(layout, minPos, width, i);
    var tweetWord := words[i];
    var text := Trim(tweetWord.text);
    var textNode: TextNode;
    var bounds: Bounds;
    newMoves, newFadeIns := moves, fadeIns;
    if text in skin.word2TextMap {
      textNode := skin.word2TextMap[text];
      skin.word2TextMap := skin.word2TextMap - {text};
      ReusedWordLooksUpItsOwnBounds(cloud, words, i);
      bounds := FindFirst(words, text).value.bounds;
      newMoves := moves + [textNode];
    } else {
      textNode := CreatedText(text, i);
      bounds := tweetWord.bounds;
      newFadeIns := fadeIns + [textNode];
    }
    skin.tweetWordList := skin.tweetWordList + [TweetWordNode(tweetWord, textNode)];
    assert skin.tweetWordList == list + (asg.added + [TweetWordNode(tweetWord, textNode)]);
    newLineOffset := layout.tweetWordLineOffset(bounds, lowerLeft, width, tweetLineOffset);
    var twPoint := layout.layoutTweetWord(bounds, minPos, newLineOffset);
    newLowerLeft := lowerLeft;
    if twPoint.y > lowerLeft.y {
      newLowerLeft := Point(lowerLeft.x + 0.0, lowerLeft.y + (twPoint.y - lowerLeft.y));
    }
    assert Assign(cloud, words, keys, i + 1) == AssignStep(asg, words, keys, i);
    assert Place(layout, minPos, width, i + 1) == PlaceStep(pl, layout, minPos, width, i);
  }

  /** The loop of doStep over the layout words, in layout order. */
  method PlaceWords(skin: WordleSkin, layout: TweetLayout, minPos: Point, width: real)
    returns (lowerLeft: Point, moves: seq<TextNode>, fadeIns: seq<TextNode>)
    modifies skin
    ensures var n := |layout.wordLayoutInfo|;
            var asg := Assign(old(skin.word2TextMap), layout.wordLayoutInfo, TrimmedTexts(layout.wordLayoutInfo), n);
            && skin.word2TextMap == asg.cloud
            && skin.tweetWordList == old(skin.tweetWordList) + asg.added
            && moves == asg.moved && fadeIns == asg.created
            && lowerLeft == Place(layout, minPos, width, n).lowerLeft
    ensures skin.infoBox == old(skin.infoBox) && skin.mediaBox == old(skin.mediaBox)
  {
    var words := layout.wordLayoutInfo;
    ghost var keys := TrimmedTexts(words);
    lowerLeft := Point(minPos.x, minPos.y);
    var tweetLineOffset := Point(0.0, 0.0);
    moves := [];
    fadeIns := [];
    ghost var cloud := skin.word2TextMap;
    ghost var list := skin.tweetWordList;
    assert list + [] == list;

    var i := 0;
    while i < |words|
      invariant 0 <= i <= |words|
      invariant var asg := Assign(cloud, words, keys, i);
        && asg.cloud == skin.word2TextMap && asg.moved == moves && asg.created == fadeIns
        && skin.tweetWordList == list + asg.added
      invariant var pl := Place(layout, minPos, width, i);
        pl.lowerLeft == lowerLeft && pl.tweetLineOffset == tweetLineOffset
      invariant skin.infoBox == old(skin.infoBox) && skin.mediaBox == old(skin.mediaBox)
    {
      moves, fadeIns, lowerLeft, tweetLineOffset :=
        PlaceWord(skin, layout, minPos, width, i, lowerLeft, tweetLineOffset, moves, fadeIns, cloud, list);
      i := i + 1;
    }
  }

  /** doStep, for a context whose declared providers are registered. With no
      current tweet it fails (`morph` is None) where the source dereferences
      the null tweet, before it changes anything. */
  method DoStep(skin: WordleSkin, ctx: MachineContext, layout: TweetLayout, minPos: Point, width: real)
    returns (lookups: seq<DataProviderKind>, morph: Option<Morph>)
    requires Wired(ctx)
    modifies skin
    ensures ctx.currentTweet.None? ==>
      && morph.None? && lookups == [TweetDataProvider]
      && skin.word2TextMap == old(skin.word2TextMap) && skin.tweetWordList == old(skin.tweetWordList)
      && skin.infoBox == old(skin.infoBox) && skin.mediaBox == old(skin.mediaBox)
    ensures ctx.currentTweet.Some? ==>
            var origin := ctx.currentTweet.value.originTweet;
            var n := |layout.wordLayoutInfo|;
            var asg := Assign(old(skin.word2TextMap), layout.wordLayoutInfo, TrimmedTexts(layout.wordLayoutInfo), n);
            var pl := Place(layout, minPos, width, n);
            && skin.word2TextMap == map[]
            && skin.tweetWordList == old(skin.tweetWordList) + asg.added
            && morph == Some(Morph(asg.cloud, asg.moved, asg.created))
            && skin.infoBox == Some(InfoBox(pl.lowerLeft, ctx.profileImage(origin.user)))
            && IsMediaBoxFor(skin.mediaBox, origin.mediaEntries, ctx.mediaImage)
            && lookups == DoStepLookups(|origin.mediaEntries| > 0)
  {
    lookups := [TweetDataProvider];
    if ctx.currentTweet.None? {
      return lookups, None;
    }
    var displayTweet := ctx.currentTweet.value;
    var originalTweet := displayTweet.originTweet;

    var lowerLeft, moves, fadeIns := PlaceWords(skin, layout, minPos, width);

    // the cloud words no tweet word took over fade out
    morph := Some(Morph(skin.word2TextMap, moves, fadeIns));
    skin.word2TextMap := map[];

    lookups := lookups + [TweetUserProfileImageDataProvider];
    skin.infoBox := Some(InfoBox(lowerLeft, ctx.profileImage(originalTweet.user)));

    var mediaBox := CreateMediaBox(displayTweet, ctx);
    if |originalTweet.mediaEntries| > 0 {
      lookups := lookups + [PhotoImageMediaEntryDataProvider];
    }
    skin.mediaBox := mediaBox;
  }
}
