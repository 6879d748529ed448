/** Header lists `name=value,name=value` (crates/config/src/lib.rs). */
module HttpHeaders {
  import opened Text

  /** One comma-separated piece folded into the headers read so far. */
  function AddPair(headers: map<string, string>, piece: string): Result<map<string, string>> {
    var pair := Trim(piece);
    if pair == "" then Ok(headers)
    else match SplitOnce(pair, '=')
      case None => Err("invalid header pair '" + pair + "', expected name=value")
      case Some((left, right)) =>
        var name, value := Trim(left), Trim(right);
        if name == "" then Err("header name cannot be empty")
        else if value == "" then Ok(headers)
        else Ok(headers[name := value])
  }

  ghost function ParsedPieces(pieces: seq<string>): Result<map<string, string>> {
    if pieces == [] then Ok(map[])
    else match ParsedPieces(pieces[..|pieces| - 1])
      case Err(m) => Err(m)
      case Ok(headers) => AddPair(headers, pieces[|pieces| - 1])
  }

  ghost function Parsed(raw: string): Result<map<string, string>> {
    ParsedPieces(Split(Trim(raw), ','))
  }

  method ParseHttpHeaders(raw: string) returns (r: Result<map<string, string>>)
    ensures r == Parsed(raw)
  {
    hide AddPair, Trim, Split;
    var pieces := Split(Trim(raw), ',');
    var headers: map<string, string> := map[];
    for i := 0 to |pieces|
      invariant ParsedPieces(pieces[..i]) == Ok(headers)
    {
      assert pieces[..i + 1][..i] == pieces[..i];
      var next := AddPair(headers, pieces[i]);
      if next.Err? {
        FirstErrorWins(pieces, i + 1);
        return next;
      }
      headers := next.value;
    }
    assert pieces[..|pieces|] == pieces;
    r := Ok(headers);
  }

  lemma {:induction false} FirstErrorWins(pieces: seq<string>, n: nat)
    requires n <= |pieces| && ParsedPieces(pieces[..n]).Err?
    ensures ParsedPieces(pieces) == ParsedPieces(pieces[..n])
    decreases |pieces| - n
  {
    hide AddPair;
    if n == |pieces| {
      assert pieces[..n] == pieces;
    } else {
      assert pieces[..n + 1][..n] == pieces[..n];
      FirstErrorWins(pieces, n + 1);
    }
  }

  /** Some order that lists every header; the source's ordered map lists them by name. */
  ghost predicate Lists(order: seq<string>, headers: map<string, string>) {
    forall k :: k in order <==> k in headers
  }

  function Pairs(headers: map<string, string>, order: seq<string>): (r: seq<string>)
    requires forall k :: k in order ==> k in headers
    ensures |r| == |order|
    ensures forall i :: 0 <= i < |r| ==> r[i] == order[i] + ['='] + headers[order[i]]
  {
    seq(|order|, i requires 0 <= i < |order| => order[i] + ['='] + headers[order[i]])
  }

  function SerializeHttpHeaders(headers: map<string, string>, order: seq<string>): Option<string>
    requires forall k :: k in order ==> k in headers
  {
    if headers == map[] then None else Some(Join(Pairs(headers, order), ','))
  }

  /** Headers the format can carry. */
  predicate CarriableName(name: string) {
    name != "" && Trimmed(name) && ',' !in name && '=' !in name
  }

  predicate CarriableValue(value: string) {
    value != "" && Trimmed(value) && ',' !in value
  }

  predicate Carriable(headers: map<string, string>) {
    forall k :: k in headers ==> CarriableName(k) && CarriableValue(headers[k])
  }

  lemma AddPairKeepsCarriable(headers: map<string, string>, piece: string)
    requires Carriable(headers) && ',' !in piece && AddPair(headers, piece).Ok?
    ensures Carriable(AddPair(headers, piece).value)
  {
    hide Trim, Trimmed, SplitOnce;
    var pair := Trim(piece);
    if pair != "" {
      var parts := SplitOnce(pair, '=').value;
      assert pair == parts.0 + ['='] + parts.1;
      assert ',' !in parts.0 && ',' !in parts.1 by {
        assert ',' !in pair;
        assert forall c :: c in parts.0 || c in parts.1 ==> c in pair;
      }
    }
  }

  /** Whatever is accepted can be carried: nothing else ever leaves the parser. */
  lemma {:induction false} ParsedIsCarriable(pieces: seq<string>)
    requires forall i :: 0 <= i < |pieces| ==> ',' !in pieces[i]
    ensures ParsedPieces(pieces).Ok? ==> Carriable(ParsedPieces(pieces).value)
  {
    hide AddPair;
    if pieces != [] {
      ParsedIsCarriable(pieces[..|pieces| - 1]);
      if ParsedPieces(pieces).Ok? {
        AddPairKeepsCarriable(ParsedPieces(pieces[..|pieces| - 1]).value, pieces[|pieces| - 1]);
      }
    }
  }

  lemma PairIsTrimmed(name: string, value: string)
    requires CarriableName(name) && CarriableValue(value)
    ensures ',' !in name + ['='] + value && Trimmed(name + ['='] + value)
  {
    hide IsSpace;
    var pair := name + ['='] + value;
    assert pair[0] == name[0] && pair[|pair| - 1] == value[|value| - 1];
  }

  lemma PairReadsBack(headers: map<string, string>, name: string, value: string)
    requires CarriableName(name) && CarriableValue(value)
    ensures AddPair(headers, name + ['='] + value) == Ok(headers[name := value])
    ensures ',' !in name + ['='] + value && Trimmed(name + ['='] + value)
  {
    hide Trim, Trimmed, SplitOnce;
    var pair := name + ['='] + value;
    PairIsTrimmed(name, value);
    SplitOnceAt(name, '=', value);
    assert pair != "" && Trim(pair) == pair && Trim(name) == name && Trim(value) == value;
  }

  function Restricted(headers: map<string, string>, order: seq<string>): map<string, string>
    requires forall k :: k in order ==> k in headers
  {
    map k | k in order :: headers[k]
  }

  lemma ListGrows(headers: map<string, string>, order: seq<string>)
    requires order != [] && forall k :: k in order ==> k in headers
    ensures var n := |order| - 1;
            && order[n] in headers
            && (forall k :: k in order[..n] ==> k in headers)
            && Pairs(headers, order)[..n] == Pairs(headers, order[..n])
            && Restricted(headers, order) == Restricted(headers, order[..n])[order[n] := headers[order[n]]]
  {
    var n := |order| - 1;
    assert order[n] in order;
    assert order == order[..n] + [order[n]];
  }

  lemma {:induction false} PairsReadBack(headers: map<string, string>, order: seq<string>)
    requires Carriable(headers) && forall k :: k in order ==> k in headers
    ensures ParsedPieces(Pairs(headers, order)) == Ok(Restricted(headers, order))
  {
    hide AddPair, Trimmed, CarriableName, CarriableValue, Pairs, Restricted;
    if order == [] {
      assert Restricted(headers, []) == map[] by {
        NothingRestricted(headers);
      }
    } else {
      var n := |order| - 1;
      ListGrows(headers, order);
      PairsReadBack(headers, order[..n]);
      PairReadsBack(Restricted(headers, order[..n]), order[n], headers[order[n]]);
    }
  }

  lemma NothingRestricted(headers: map<string, string>)
    ensures Restricted(headers, []) == map[]
  {
  }

  lemma {:induction false} JoinIsTrimmed(pieces: seq<string>)
    requires pieces != [] && forall i :: 0 <= i < |pieces| ==> pieces[i] != "" && Trimmed(pieces[i])
    ensures Join(pieces, ',') != "" && Trimmed(Join(pieces, ','))
    ensures Join(pieces, ',')[0] == pieces[0][0]
  {
    hide IsSpace;
    if |pieces| > 1 {
      JoinIsTrimmed(pieces[1..]);
    }
  }

  lemma AcceptedIsCarriable(raw: string)
    requires Parsed(raw).Ok?
    ensures Carriable(Parsed(raw).value)
  {
    hide ParsedPieces, Carriable, Trim;
    var pieces := Split(Trim(raw), ',');
    assert forall i :: 0 <= i < |pieces| ==> pieces[i] in pieces;
    ParsedIsCarriable(pieces);
  }

  lemma AllRestricted(headers: map<string, string>, order: seq<string>)
    requires headers != map[] && Lists(order, headers)
    ensures order != [] && Restricted(headers, order) == headers
  {
    var k :| k in headers;
    assert k in order;
  }

  lemma PairsAreClean(headers: map<string, string>, order: seq<string>)
    requires Carriable(headers) && forall k :: k in order ==> k in headers
    ensures var pairs := Pairs(headers, order);
            forall i :: 0 <= i < |pairs| ==> pairs[i] != "" && Trimmed(pairs[i]) && ',' !in pairs[i]
  {
    hide AddPair, Trimmed, CarriableName, CarriableValue;
    var pairs := Pairs(headers, order);
    forall i | 0 <= i < |pairs| ensures pairs[i] != "" && Trimmed(pairs[i]) && ',' !in pairs[i] {
      assert order[i] in headers;
      PairReadsBack(map[], order[i], headers[order[i]]);
    }
  }

  /** Exact: a non-empty header map survives serialization, in whatever order it is listed, if and
      only if every name and value is one the format can carry. */
  lemma HeadersSurviveIff(headers: map<string, string>, order: seq<string>)
    requires headers != map[] && Lists(order, headers)
    ensures Parsed(SerializeHttpHeaders(headers, order).value) == Ok(headers) <==> Carriable(headers)
  {
    hide Parsed, Carriable, Join, Split, Restricted;
    var pairs := Pairs(headers, order);
    var raw := Join(pairs, ',');
    if Carriable(headers) {
      CarriableReadsBack(headers, order);
    } else if Parsed(raw).Ok? {
      AcceptedIsCarriable(raw);
    }
  }

  lemma CarriableReadsBack(headers: map<string, string>, order: seq<string>)
    requires headers != map[] && Lists(order, headers) && Carriable(headers)
    ensures Parsed(Join(Pairs(headers, order), ',')) == Ok(headers)
  {
    hide AddPair, ParsedPieces, Trimmed, Carriable, Join, Split, Restricted, Pairs;
    var pairs := Pairs(headers, order);
    AllRestricted(headers, order);
    PairsAreClean(headers, order);
    PairsReadBack(headers, order);
    JoinIsTrimmed(pairs);
    SplitJoin(pairs, ',');
  }

  /** Every accepted header string has a normal form: parsing the serialization of what it means gives
      the same headers, and what means nothing serializes to nothing. */
  lemma AcceptedHeadersRoundTrip(raw: string, order: seq<string>)
    requires Parsed(raw).Ok? && Lists(order, Parsed(raw).value)
    ensures var headers := Parsed(raw).value;
            var out := SerializeHttpHeaders(headers, order);
            && Carriable(headers)
            && (out.None? <==> headers == map[])
            && (out.Some? ==> Parsed(out.value) == Ok(headers))
  {
    hide Parsed, Carriable, Pairs;
    AcceptedIsCarriable(raw);
    if Parsed(raw).value != map[] {
      HeadersSurviveIff(Parsed(raw).value, order);
    }
  }

  // ---- What is accepted, and what it says ----

  /** A piece that is blank, or has a name before its first `=`. */
  ghost predicate WellFormedPiece(piece: string) {
    Trim(piece) == ""
    || exists left, right :: Trim(piece) == left + ['='] + right && '=' !in left && Trim(left) != ""
  }

  /** A piece that gives `name` the value `value`. */
  ghost predicate Gives(piece: string, name: string, value: string) {
    && name != "" && value != ""
    && exists left, right ::
         Trim(piece) == left + ['='] + right && '=' !in left && Trim(left) == name && Trim(right) == value
  }

  lemma CutIsUnique(s: string, left: string, right: string)
    requires s == left + ['='] + right && '=' !in left
    ensures SplitOnce(s, '=') == Some((left, right))
  {
    SplitOnceAt(left, '=', right);
  }

  lemma PieceIff(headers: map<string, string>, piece: string)
    ensures AddPair(headers, piece).Ok? <==> WellFormedPiece(piece)
    ensures AddPair(headers, piece).Ok? ==>
              forall name :: (name in AddPair(headers, piece).value <==>
                name in headers || exists value :: Gives(piece, name, value))
    ensures AddPair(headers, piece).Ok? ==>
              forall name :: name in AddPair(headers, piece).value ==>
                var value := AddPair(headers, piece).value[name];
                || Gives(piece, name, value)
                || (name in headers && headers[name] == value && !exists w :: Gives(piece, name, w))
  {
    hide Trim, SplitOnce;
    forall left, right | Trim(piece) == left + ['='] + right && '=' !in left
      ensures SplitOnce(Trim(piece), '=') == Some((left, right))
    {
      CutIsUnique(Trim(piece), left, right);
    }
    var cut := SplitOnce(Trim(piece), '=');
    if cut.Some? {
      var left, right := cut.value.0, cut.value.1;
      assert Trim(piece) == left + ['='] + right && '=' !in left;
      if Trim(left) != "" && Trim(right) != "" {
        assert Gives(piece, Trim(left), Trim(right));
      }
    }
  }

  /** Exact: a header string is accepted if and only if each of its pieces between commas is blank or has a name before
      its first `=`. One non-blank piece without `=` refuses them all. */
  lemma AcceptedIff(raw: string)
    ensures Parsed(raw).Ok? <==> forall piece :: piece in Split(Trim(raw), ',') ==> WellFormedPiece(piece)
  {
    hide Trim, Split, WellFormedPiece;
    var pieces := Split(Trim(raw), ',');
    PiecesAcceptedIff(pieces);
    assert forall i :: 0 <= i < |pieces| ==> pieces[i] in pieces;
  }

  lemma {:induction false} PiecesAcceptedIff(pieces: seq<string>)
    ensures ParsedPieces(pieces).Ok? <==> forall i :: 0 <= i < |pieces| ==> WellFormedPiece(pieces[i])
  {
    hide AddPair, WellFormedPiece;
    if pieces != [] {
      var n := |pieces| - 1;
      PiecesAcceptedIff(pieces[..n]);
      if ParsedPieces(pieces[..n]).Ok? {
        PieceIff(ParsedPieces(pieces[..n]).value, pieces[n]);
      }
      assert forall i :: 0 <= i < n ==> pieces[..n][i] == pieces[i];
    }
  }

  /** What an accepted string says: exactly the names it gives a value, each with the last value given. */
  lemma {:induction false} LastGivenWins(pieces: seq<string>, name: string)
    requires ParsedPieces(pieces).Ok?
    ensures name in ParsedPieces(pieces).value <==>
              exists i, value :: 0 <= i < |pieces| && Gives(pieces[i], name, value)
    ensures name in ParsedPieces(pieces).value ==>
              exists i :: 0 <= i < |pieces| && Gives(pieces[i], name, ParsedPieces(pieces).value[name])
                          && forall j, value :: i < j < |pieces| ==> !Gives(pieces[j], name, value)
  {
    hide AddPair, Gives, WellFormedPiece;
    if pieces != [] {
      var n := |pieces| - 1;
      var before := pieces[..n];
      LastGivenWins(before, name);
      PieceIff(ParsedPieces(before).value, pieces[n]);
      assert forall i :: 0 <= i < n ==> before[i] == pieces[i];
    }
  }
}
