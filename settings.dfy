/** The backend's allowed CORS origins (backend/settings.py): a
    comma-separated text read from the environment, trimmed, with "*" when
    nothing is left. */
module Settings {
  import opened Wrappers
  import opened PyText
  import opened Sorting

  const OriginsVariable: string := "INVICTOS_ALLOWED_ORIGINS"

  /** The default text, "http://localhost:3000,http://127.0.0.1:3000",
      written as its two origins around the comma. */
  const DefaultOrigins: string := LocalOrigin + "," + LoopbackOrigin

  const LocalOrigin: string := "http://localhost:3000"

  const LoopbackOrigin: string := "http://127.0.0.1:3000"

  /** One piece of the split, as the comprehension keeps it: trimmed, and
      only when something is left. */
  function TrimmedPiece(item: string): (r: Option<string>)
    ensures r.Some? <==> Strip(item) != []
    ensures r.Some? ==> r.value == Strip(item)
  {
    if Strip(item) != [] then Some(Strip(item)) else None
  }

  /** [item.strip() for item in raw.split(",") if item.strip()]. */
  function Origins(raw: string): seq<string> {
    Collect(Split(raw, ','), TrimmedPiece)
  }

  /** _parse_origins: the trimmed non-empty pieces, or ["*"] when there
      are none. */
  function ParseOrigins(raw: string): (r: seq<string>)
    ensures |r| >= 1
    ensures Origins(raw) == [] ==> r == ["*"]
    ensures Origins(raw) != [] ==> r == Origins(raw)
  {
    var values := Origins(raw);
    if values == [] then ["*"] else values
  }

  /** An origin is kept exactly when some piece of the text trims to it
      and it is not empty. */
  lemma OriginsMembers(raw: string, o: string)
    ensures o in Origins(raw) <==> o != [] && exists i :: 0 <= i < |Split(raw, ',')| && Strip(Split(raw, ',')[i]) == o
  {
    if o in Origins(raw) {
      KeptOriginHasPiece(raw, o);
    }
    if o != [] && exists i :: 0 <= i < |Split(raw, ',')| && Strip(Split(raw, ',')[i]) == o {
      var i :| 0 <= i < |Split(raw, ',')| && Strip(Split(raw, ',')[i]) == o;
      PieceIsKept(raw, o, i);
    }
  }

  lemma KeptOriginHasPiece(raw: string, o: string)
    requires o in Origins(raw)
    ensures o != [] && exists i :: 0 <= i < |Split(raw, ',')| && Strip(Split(raw, ',')[i]) == o
  {
    var pieces := Split(raw, ',');
    CollectMembers(pieces, TrimmedPiece, o);
    var i :| 0 <= i < |pieces| && TrimmedPiece(pieces[i]) == Some(o);
    assert Strip(pieces[i]) == o;
  }

  lemma PieceIsKept(raw: string, o: string, i: nat)
    requires i < |Split(raw, ',')| && Strip(Split(raw, ',')[i]) == o && o != []
    ensures o in Origins(raw)
  {
    var pieces := Split(raw, ',');
    assert TrimmedPiece(pieces[i]) == Some(o);
    CollectMembers(pieces, TrimmedPiece, o);
  }

  /** No origin holds a comma, or starts or ends with whitespace. */
  lemma OriginsClean(raw: string, o: string)
    requires o in Origins(raw)
    ensures o != [] && ',' !in o && !IsSpace(o[0]) && !IsSpace(o[|o| - 1])
  {
    var pieces := Split(raw, ',');
    CollectMembers(pieces, TrimmedPiece, o);
    var i :| 0 <= i < |pieces| && TrimmedPiece(pieces[i]) == Some(o);
    StripInside(pieces[i], ',');
  }

  /** Trimming keeps a character out if it was out. */
  lemma StripInside(s: string, c: char)
    requires c !in s
    ensures c !in Strip(s)
  {
    var r := Strip(s);
    forall k | 0 <= k < |r| ensures r[k] != c {
      assert r[k] == s[LeadingSpaces(s) + k];
    }
  }

  /** The order of the input is kept: when every piece is already trimmed
      and non-empty, the origins are the pieces themselves. */
  lemma TrimmedPiecesKept(pieces: seq<string>)
    requires forall i :: 0 <= i < |pieces| ==> pieces[i] != [] && Strip(pieces[i]) == pieces[i]
    ensures Collect(pieces, TrimmedPiece) == pieces
  {
    forall i | 0 <= i < |pieces| ensures TrimmedPiece(pieces[i]) == Some(pieces[i]) {
    }
    CollectAllKept(pieces, TrimmedPiece);
  }

  /** Two trimmed origins joined by a comma parse back as the two. */
  lemma TwoOrigins(a: string, b: string)
    requires a != [] && !IsSpace(a[0]) && !IsSpace(a[|a| - 1]) && ',' !in a
    requires b != [] && !IsSpace(b[0]) && !IsSpace(b[|b| - 1]) && ',' !in b
    ensures ParseOrigins(a + "," + b) == [a, b]
  {
    assert a + "," + b == Join([a, b], ',');
    SplitJoin([a, b], ',');
    NoOuterSpaces(a);
    NoOuterSpaces(b);
    TrimmedPiecesKept([a, b]);
  }

  /** The default text gives exactly the two local origins, in order. */
  lemma DefaultOriginsParsed()
    ensures ParseOrigins(DefaultOrigins) == [LocalOrigin, LoopbackOrigin]
  {
    TwoOrigins(LocalOrigin, LoopbackOrigin);
  }

  /** A text that starts and ends with a non-space trims to itself. */
  lemma NoOuterSpaces(s: string)
    requires s != [] && !IsSpace(s[0]) && !IsSpace(s[|s| - 1])
    ensures Strip(s) == s
  {
    assert LeadingSpaces(s) == 0;
    var t := s[0..];
    assert t == s;
    assert TrailingSpaces(s) == 0;
  }

  /** Settings().allowed_origins: the variable's text when it is set,
      else the default. */
  function AllowedOrigins(env: map<string, string>): (r: seq<string>)
    ensures OriginsVariable !in env ==> r == ParseOrigins(DefaultOrigins)
    ensures OriginsVariable in env ==> r == ParseOrigins(env[OriginsVariable])
    ensures |r| >= 1
  {
    ParseOrigins(if OriginsVariable in env then env[OriginsVariable] else DefaultOrigins)
  }

  /** With the variable unset, the two local origins are allowed. */
  lemma UnsetVariableDefaults(env: map<string, string>)
    requires OriginsVariable !in env
    ensures AllowedOrigins(env) == [LocalOrigin, LoopbackOrigin]
  {
    DefaultOriginsParsed();
  }

  /** A variable set to a text without origins, the empty text included,
      allows every origin: os.getenv returns the text, not the default. */
  lemma BlankVariableAllowsAll(env: map<string, string>)
    requires OriginsVariable in env
    requires forall i :: 0 <= i < |Split(env[OriginsVariable], ',')| ==> Strip(Split(env[OriginsVariable], ',')[i]) == []
    ensures AllowedOrigins(env) == ["*"]
  {
    var raw := env[OriginsVariable];
    if Origins(raw) != [] {
      OriginsMembers(raw, Origins(raw)[0]);
    }
  }

  /** INVICTOS_ALLOWED_ORIGINS set to the empty text allows every origin. */
  lemma EmptyVariableAllowsAll(env: map<string, string>)
    requires OriginsVariable in env && env[OriginsVariable] == []
    ensures AllowedOrigins(env) == ["*"]
  {
    BlankVariableAllowsAll(env);
  }
}
