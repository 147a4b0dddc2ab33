/** Building the request of the daily player gamelogs endpoint: the fixed path
    template, the optional query parameters appended in a fixed order, the
    early return when a required part is missing, and the status test applied
    to the response. */
module GamelogRequest {

  import opened GamelogOptions
  import opened CacheBusting

  /** One optional query parameter: its key and the caller's value. */
  datatype Param = Param(key: string, value: string)

  /** The optional keys, in the order the builder appends them. */
  const OptionalKeys: seq<string> :=
    ["team", "player", "position", "game", "stats", "sort", "offset", "limit", "force"]

  /** The optional parameters of the options, keyed and in append order. */
  function OptionalParams(o: Options): (ps: seq<Param>)
    ensures |ps| == |OptionalKeys|
    ensures forall i :: 0 <= i < |ps| ==> ps[i].key == OptionalKeys[i]
  {
    [Param("team", o.team), Param("player", o.player), Param("position", o.position),
     Param("game", o.game), Param("stats", o.stats), Param("sort", o.sort),
     Param("offset", o.offset), Param("limit", o.limit), Param("force", o.force)]
  }

  /** The path template filled from the seven required parts, ending in the
      cache-buster. */
  function BaseUri(o: Options, cacheBuster: string): (r: string)
    ensures o.url <= r
    ensures |r| == |o.url| + |o.version| + |o.sport| + |o.season| + |o.date| + |o.week|
                   + |o.format| + |cacheBuster| + 50
    ensures r[|r| - |cacheBuster|..] == cacheBuster
  {
    o.url + "/" + o.version + "/pull/" + o.sport + "/" + o.season
      + "/date/" + o.date + "/week/" + o.week
      + "/player_gamelogs." + o.format + "?cachebuster=" + cacheBuster
  }

  /** `&key=`, the text put before a value. */
  function Marker(key: string): string
  {
    "&" + key + "="
  }

  /** `&key=value`, with the value taken verbatim. */
  function Segment(p: Param): string
  {
    Marker(p.key) + p.value
  }

  /** One reassignment of the builder: `&key=value` when the value is non-empty.
      Nothing is escaped, so the URI grows by exactly the key, the two
      punctuation characters and the value. */
  function AppendParam(uri: string, key: string, value: string): (r: string)
    ensures |r| == |uri| + (if |value| > 0 then |key| + 2 + |value| else 0)
  {
    if |value| > 0 then uri + Marker(key) + value else uri
  }

  /** An append keeps what was built, changes the URI only for a non-empty
      value, and then leaves `&key=` followed by the value itself at the end. */
  lemma AppendParamExtends(uri: string, key: string, value: string)
    ensures uri <= AppendParam(uri, key, value)
    ensures AppendParam(uri, key, value) == uri <==> |value| == 0
    ensures |value| > 0 ==>
      AppendParam(uri, key, value)[|uri|..] == Marker(key) + value &&
      AppendParam(uri, key, value)[|uri| + |key| + 2..] == value
  {
  }

  /** The URI after the builder has processed the first n parameters. */
  function Appended(base: string, ps: seq<Param>, n: nat): string
    requires n <= |ps|
  {
    if n == 0 then base else AppendParam(Appended(base, ps, n - 1), ps[n - 1].key, ps[n - 1].value)
  }

  /** The full request URI of the endpoint. */
  function RequestUri(o: Options, cacheBuster: string): (r: string)
    ensures BaseUri(o, cacheBuster) <= r
    ensures |r| == |BaseUri(o, cacheBuster)| + AddedLength(OptionalParams(o), |OptionalKeys|)
  {
    var base := BaseUri(o, cacheBuster);
    var ps := OptionalParams(o);
    BaseIsPrefix(base, ps, |ps|);
    AppendedLength(base, ps, |ps|);
    Appended(base, ps, |ps|)
  }

  /** The request URI as nine successive appends. */
  lemma RequestUriUnrolled(o: Options, cacheBuster: string)
    ensures RequestUri(o, cacheBuster) ==
      AppendParam(AppendParam(AppendParam(AppendParam(AppendParam(AppendParam(
        AppendParam(AppendParam(AppendParam(BaseUri(o, cacheBuster),
          "team", o.team), "player", o.player), "position", o.position),
          "game", o.game), "stats", o.stats), "sort", o.sort),
          "offset", o.offset), "limit", o.limit), "force", o.force)
  {
    var ps := OptionalParams(o);
    var u := BaseUri(o, cacheBuster);
    u := AppendParam(u, "team", o.team);
    assert Appended(BaseUri(o, cacheBuster), ps, 1) == u;
    u := AppendParam(u, "player", o.player);
    assert Appended(BaseUri(o, cacheBuster), ps, 2) == u;
    u := AppendParam(u, "position", o.position);
    assert Appended(BaseUri(o, cacheBuster), ps, 3) == u;
    u := AppendParam(u, "game", o.game);
    assert Appended(BaseUri(o, cacheBuster), ps, 4) == u;
    u := AppendParam(u, "stats", o.stats);
    assert Appended(BaseUri(o, cacheBuster), ps, 5) == u;
    u := AppendParam(u, "sort", o.sort);
    assert Appended(BaseUri(o, cacheBuster), ps, 6) == u;
    u := AppendParam(u, "offset", o.offset);
    assert Appended(BaseUri(o, cacheBuster), ps, 7) == u;
    u := AppendParam(u, "limit", o.limit);
    assert Appended(BaseUri(o, cacheBuster), ps, 8) == u;
  }

  /** Builds the URI the way the endpoint does: format the template, then
      reassign the URI once per non-empty optional parameter. */
  method BuildUri(o: Options, cacheBuster: string) returns (uri: string)
    ensures uri == RequestUri(o, cacheBuster)
  {
    assert Marker("team") == "&team=" && Marker("player") == "&player=";
    assert Marker("position") == "&position=" && Marker("game") == "&game=";
    assert Marker("stats") == "&stats=" && Marker("sort") == "&sort=";
    assert Marker("offset") == "&offset=" && Marker("limit") == "&limit=";
    assert Marker("force") == "&force=";

    uri := BaseUri(o, cacheBuster);
    if |o.team| > 0 {
      uri := uri + "&team=" + o.team;
    }
    if |o.player| > 0 {
      uri := uri + "&player=" + o.player;
    }
    if |o.position| > 0 {
      uri := uri + "&position=" + o.position;
    }
    if |o.game| > 0 {
      uri := uri + "&game=" + o.game;
    }
    if |o.stats| > 0 {
      uri := uri + "&stats=" + o.stats;
    }
    if |o.sort| > 0 {
      uri := uri + "&sort=" + o.sort;
    }
    if |o.offset| > 0 {
      uri := uri + "&offset=" + o.offset;
    }
    if |o.limit| > 0 {
      uri := uri + "&limit=" + o.limit;
    }
    if |o.force| > 0 {
      uri := uri + "&force=" + o.force;
    }
    RequestUriUnrolled(o, cacheBuster);
  }

  // ---------------------------------------------------------------------------
  // What the appended query is: the present parameters, in order, verbatim.

  /** The positions, among the first n parameters, whose value is non-empty,
      in increasing order. */
  function PresentPositions(ps: seq<Param>, n: nat): (ix: seq<nat>)
    requires n <= |ps|
    ensures forall k :: 0 <= k < |ix| ==> ix[k] < n
    ensures forall i :: i in ix <==> 0 <= i < n && |ps[i].value| > 0
    ensures forall k, l :: 0 <= k < l < |ix| ==> ix[k] < ix[l]
  {
    if n == 0 then []
    else PresentPositions(ps, n - 1) + (if |ps[n - 1].value| > 0 then [n - 1] else [])
  }

  /** The segments of the parameters at the given positions, concatenated in
      the order of the positions. */
  function Segments(ps: seq<Param>, ix: seq<nat>): string
    requires forall k :: 0 <= k < |ix| ==> ix[k] < |ps|
  {
    if ix == [] then "" else Segments(ps, ix[..|ix| - 1]) + Segment(ps[ix[|ix| - 1]])
  }

  lemma AppendAssoc(a: string, b: string, c: string, d: string)
    ensures a + b + c + d == a + (b + (c + d))
  {
  }

  lemma SegmentsSnoc(ps: seq<Param>, ix: seq<nat>, j: nat)
    requires forall k :: 0 <= k < |ix| ==> ix[k] < |ps|
    requires j < |ps|
    ensures Segments(ps, ix + [j]) == Segments(ps, ix) + Segment(ps[j])
  {
    assert (ix + [j])[..|ix|] == ix;
  }

  /** After n appends the URI is the base followed by the segments of exactly
      the present parameters among the first n, in their original order. */
  lemma {:induction false} AppendedIsBaseAndPresentSegments(base: string, ps: seq<Param>, n: nat)
    requires n <= |ps|
    ensures Appended(base, ps, n) == base + Segments(ps, PresentPositions(ps, n))
  {
    if n > 0 {
      AppendedIsBaseAndPresentSegments(base, ps, n - 1);
      var ix := PresentPositions(ps, n - 1);
      var p := ps[n - 1];
      if |p.value| > 0 {
        assert Appended(base, ps, n) == Appended(base, ps, n - 1) + Marker(p.key) + p.value;
        assert PresentPositions(ps, n) == ix + [n - 1];
        SegmentsSnoc(ps, ix, n - 1);
        AppendAssoc(base, Segments(ps, ix), Marker(p.key), p.value);
      } else {
        assert Appended(base, ps, n) == Appended(base, ps, n - 1);
        assert PresentPositions(ps, n) == ix;
      }
    }
  }

  /** The request URI is the base URI followed by `&key=value` for exactly the
      optional parameters with a non-empty value, in the fixed order team,
      player, position, game, stats, sort, offset, limit, force. */
  lemma RequestUriLayout(o: Options, cacheBuster: string)
    ensures var ps := OptionalParams(o);
      RequestUri(o, cacheBuster) == BaseUri(o, cacheBuster) + Segments(ps, PresentPositions(ps, |ps|))
  {
    AppendedIsBaseAndPresentSegments(BaseUri(o, cacheBuster), OptionalParams(o), |OptionalKeys|);
  }

  /** The base URI is always a prefix of the URI built on it. */
  lemma {:induction false} BaseIsPrefix(base: string, ps: seq<Param>, n: nat)
    requires n <= |ps|
    ensures |base| <= |Appended(base, ps, n)|
    ensures Appended(base, ps, n)[..|base|] == base
  {
    if n > 0 {
      BaseIsPrefix(base, ps, n - 1);
    }
  }

  /** Characters each appended parameter adds: `&`, key, `=`, value; nothing
      for an empty value. */
  function AddedLength(ps: seq<Param>, n: nat): nat
    requires n <= |ps|
  {
    if n == 0 then 0
    else AddedLength(ps, n - 1) + (if |ps[n - 1].value| > 0 then |ps[n - 1].key| + 2 + |ps[n - 1].value| else 0)
  }

  /** Values are copied verbatim: the URI grows by exactly `&key=value` per
      present parameter. */
  lemma {:induction false} AppendedLength(base: string, ps: seq<Param>, n: nat)
    requires n <= |ps|
    ensures |Appended(base, ps, n)| == |base| + AddedLength(ps, n)
  {
    if n > 0 {
      AppendedLength(base, ps, n - 1);
    }
  }

  /** With no optional parameter set, the request URI is the base URI. */
  lemma NoOptionalsGivesBaseUri(o: Options, cacheBuster: string)
    requires forall p :: p in OptionalParams(o) ==> p.value == ""
    ensures RequestUri(o, cacheBuster) == BaseUri(o, cacheBuster)
  {
    var ps := OptionalParams(o);
    RequestUriLayout(o, cacheBuster);
    assert PresentPositions(ps, |ps|) == [];
  }

  /** Setting only the team puts `&team=<team>` right after the base URI. */
  lemma OnlyTeamAppendsTeam(o: Options, cacheBuster: string)
    requires o.team != ""
    requires o.player == o.position == o.game == o.stats == ""
    requires o.sort == o.offset == o.limit == o.force == ""
    ensures RequestUri(o, cacheBuster) == BaseUri(o, cacheBuster) + "&team=" + o.team
  {
    RequestUriUnrolled(o, cacheBuster);
    assert Marker("team") == "&team=";
  }

  /** Values are not escaped, so a team value holding `&player=` followed by
      the player reads like a separate player parameter: the two option sets
      differ but give the same request URI. */
  lemma UnescapedValuesCollide(o: Options, cacheBuster: string)
    requires o.team != "" && o.player != ""
    ensures var o' := o.(team := o.team + "&player=" + o.player, player := "");
      o' != o && RequestUri(o', cacheBuster) == RequestUri(o, cacheBuster)
  {
    var o' := o.(team := o.team + "&player=" + o.player, player := "");
    RequestUriUnrolled(o, cacheBuster);
    RequestUriUnrolled(o', cacheBuster);
    var base := BaseUri(o, cacheBuster);
    assert BaseUri(o', cacheBuster) == base;
    assert Marker("team") == "&team=";
    assert Marker("player") == "&player=";
    assert AppendParam(AppendParam(base, "team", o'.team), "player", o'.player)
        == AppendParam(AppendParam(base, "team", o.team), "player", o.player);
  }

  // ---------------------------------------------------------------------------
  // The request-building half of the call.

  /** Where the call stands once the request is prepared: it has already
      returned (status 0, the validation error, and the empty mapping), or it
      sends a GET to the built URI. */
  datatype Prepared = EarlyReturn(status: int, err: MissingOption) | Send(uri: string)

  /** Validate, then take the clock reading and build the URI. */
  method PrepareRequest(o: Options, now: Clock) returns (p: Prepared)
    requires ValidClock(now)
    ensures p.EarlyReturn? <==> !AllRequiredPresent(o)
    ensures p.EarlyReturn? ==> p.status == 0 && RequiredValue(o, p.err.field) == ""
    ensures p.EarlyReturn? ==> forall g :: Rank(g) < Rank(p.err.field) ==> RequiredValue(o, g) != ""
    ensures p.Send? ==> p.uri == RequestUri(o, CacheBuster(now))
  {
    var err := Validate(o);
    if err.Some? {
      return EarlyReturn(0, err.value);
    }
    var cacheBuster := CacheBuster(now);
    var uri := BuildUri(o, cacheBuster);
    return Send(uri);
  }

  /** The status test applied to the response: below 200 or above 300 fails. */
  function StatusAccepted(code: int): (ok: bool)
    ensures ok <==> 200 <= code <= 300
  {
    !(code < 200 || code > 300)
  }

  /** The success class of HTTP: statuses whose hundreds digit is 2. */
  predicate SuccessClass(code: int)
  {
    code / 100 == 2
  }

  /** The test accepts the success class and, beyond it, exactly one more
      status: 300 (Multiple Choices). */
  lemma StatusAcceptedBeyondSuccessClass(code: int)
    ensures StatusAccepted(code) <==> SuccessClass(code) || code == 300
  {
  }

  /** 300 (Multiple Choices) is accepted; 199 and 301 are not. */
  lemma StatusBoundaries()
    ensures StatusAccepted(200) && StatusAccepted(300)
    ensures !StatusAccepted(199) && !StatusAccepted(301)
    ensures !SuccessClass(300)
  {
  }
}
