/**
 * `X_Mesh_Loader`: an ad-hoc reader for text `.x` files.  Lines are split
 * into tokens, then the token list is scanned for `Mesh {`, `MeshNormals {`
 * and `MeshTextureCoords {` blocks, each a fixed number of header tokens, a
 * count and that many groups of numbers.  The file's lines are a parameter;
 * `Convert.ToSingle` and `Convert.ToInt32` are the partial functions of a
 * `Parsers` value; an exception becomes a `Failure`.
 */
module XMeshLoader {
  import opened Wrappers

  // ---------------------------------------------------------------------
  // Tokenising (`readSourceFile`)
  // ---------------------------------------------------------------------

  /** The characters `readSourceFile` splits on. */
  predicate IsDelimiter(c: char) {
    c == ' ' || c == ',' || c == ';' || c == '\t'
  }

  predicate NoDelimiter(s: string) {
    forall k :: 0 <= k < |s| ==> !IsDelimiter(s[k])
  }

  /** The delimiters of s, in order. */
  function Delimiters(s: string): (r: string)
    ensures forall k :: 0 <= k < |r| ==> IsDelimiter(r[k])
  {
    if |s| == 0 then [] else (if IsDelimiter(s[0]) then [s[0]] else []) + Delimiters(s[1..])
  }

  /**
   * `String.Split(char[])`: the pieces between delimiters, empty ones included,
   * so there is always one more piece than there are delimiters.
   */
  function Split(s: string): (r: seq<string>)
    ensures |r| == |Delimiters(s)| + 1
    ensures forall k :: 0 <= k < |r| ==> NoDelimiter(r[k])
  {
    if |s| == 0 then [""]
    else
      var rest := Split(s[1..]);
      if IsDelimiter(s[0]) then [""] + rest
      else [[s[0]] + rest[0]] + rest[1..]
  }

  /** The pieces glued back together with the delimiters between them. */
  function Join(pieces: seq<string>, ds: string): string
    requires |pieces| == |ds| + 1
  {
    if |ds| == 0 then pieces[0] else pieces[0] + [ds[0]] + Join(pieces[1..], ds[1..])
  }

  /** Splitting loses nothing: the pieces and the delimiters rebuild the line. */
  lemma {:induction false} SplitJoin(s: string)
    ensures Join(Split(s), Delimiters(s)) == s
  {
    if |s| > 0 {
      SplitJoin(s[1..]);
      var rest := Split(s[1..]);
      var ds := Delimiters(s[1..]);
      assert s == [s[0]] + s[1..];
      if IsDelimiter(s[0]) {
        assert Split(s) == [""] + rest && Delimiters(s) == [s[0]] + ds;
        assert (Split(s))[1..] == rest;
        assert Join(Split(s), Delimiters(s)) == "" + [s[0]] + Join(rest, ds);
      } else if |ds| == 0 {
        assert Delimiters(s) == ds;
        assert Join(Split(s), ds) == [s[0]] + rest[0];
      } else {
        assert Delimiters(s) == ds;
        assert Split(s)[1..] == rest[1..];
        assert Join(Split(s), ds) == [s[0]] + rest[0] + [ds[0]] + Join(rest[1..], ds[1..]);
        assert Join(rest, ds) == rest[0] + [ds[0]] + Join(rest[1..], ds[1..]);
      }
    }
  }

  /** The pieces the loop keeps: it skips the empty ones. */
  function NonEmpty(pieces: seq<string>): (r: seq<string>)
    ensures forall k :: 0 <= k < |r| ==> r[k] != []
  {
    if |pieces| == 0 then []
    else if |pieces[|pieces| - 1]| == 0 then NonEmpty(pieces[..|pieces| - 1])
    else NonEmpty(pieces[..|pieces| - 1]) + [pieces[|pieces| - 1]]
  }

  /** The tokens of a list of lines, in line order. */
  function Tokenise(lines: seq<string>): seq<string>
  {
    if |lines| == 0 then [] else Tokenise(lines[..|lines| - 1]) + NonEmpty(Split(lines[|lines| - 1]))
  }

  /** Every piece NonEmpty keeps is one of its input's. */
  lemma {:induction false} NonEmptyFrom(pieces: seq<string>)
    ensures forall k :: 0 <= k < |NonEmpty(pieces)| ==> NonEmpty(pieces)[k] in pieces
  {
    if |pieces| > 0 {
      var init := pieces[..|pieces| - 1];
      NonEmptyFrom(init);
      forall k | 0 <= k < |NonEmpty(init)| ensures NonEmpty(init)[k] in pieces {
        assert NonEmpty(init)[k] in init;
      }
    }
  }

  /** No token is empty and none contains a delimiter. */
  lemma {:induction false} TokensWellFormed(lines: seq<string>)
    ensures forall k :: 0 <= k < |Tokenise(lines)| ==> Tokenise(lines)[k] != [] && NoDelimiter(Tokenise(lines)[k])
  {
    if |lines| > 0 {
      TokensWellFormed(lines[..|lines| - 1]);
      var ps := Split(lines[|lines| - 1]);
      NonEmptyFrom(ps);
      var ts := Tokenise(lines);
      var a := Tokenise(lines[..|lines| - 1]);
      forall k | 0 <= k < |ts| ensures ts[k] != [] && NoDelimiter(ts[k]) {
        if k >= |a| {
          assert ts[k] == NonEmpty(ps)[k - |a|];
          var t := ts[k];
          assert t in ps;
          var m :| 0 <= m < |ps| && ps[m] == t;
        }
      }
    }
  }

  /** Tokenising a file is tokenising its two halves one after the other. */
  lemma {:induction false} TokeniseAppend(a: seq<string>, b: seq<string>)
    ensures Tokenise(a + b) == Tokenise(a) + Tokenise(b)
    decreases |b|
  {
    if |b| == 0 {
      assert a + b == a;
    } else {
      var b0 := b[..|b| - 1];
      var last := NonEmpty(Split(b[|b| - 1]));
      TokeniseAppend(a, b0);
      assert (a + b)[..|a + b| - 1] == a + b0;
      assert (a + b)[|a + b| - 1] == b[|b| - 1];
      calc {
        Tokenise(a + b);
        Tokenise(a + b0) + last;
        (Tokenise(a) + Tokenise(b0)) + last;
        Tokenise(a) + (Tokenise(b0) + last);
        Tokenise(a) + Tokenise(b);
      }
    }
  }

  /** The loader's state: the token list and the four output lists. */
  datatype Loader = Loader(tokens: seq<string>, vertices: seq<real>, indices: seq<int>,
                           normals: seq<real>, texUV: seq<real>)

  /** The constructor: every list empty. */
  const EmptyLoader: Loader := Loader([], [], [], [], [])

  /**
   * `readSourceFile`: append the tokens of every line, in order, to the
   * token list; the output lists are untouched.
   */
  method ReadSourceFile(l: Loader, lines: seq<string>) returns (r: Loader)
    ensures r == l.(tokens := l.tokens + Tokenise(lines))
  {
    r := l;
    var i := 0;
    while i < |lines|
      invariant 0 <= i <= |lines|
      invariant r == l.(tokens := l.tokens + Tokenise(lines[..i]))
    {
      var kept := LineTokens(lines[i]);
      assert lines[..i + 1][..i] == lines[..i];
      r := r.(tokens := r.tokens + kept);
      i := i + 1;
    }
    assert lines[..i] == lines;
  }

  /** One line's tokens: its split pieces with the empty ones dropped. */
  method LineTokens(line: string) returns (kept: seq<string>)
    ensures kept == NonEmpty(Split(line))
  {
    var pieces := Split(line);
    var j := 0;
    kept := [];
    while j < |pieces|
      invariant 0 <= j <= |pieces|
      invariant kept == NonEmpty(pieces[..j])
    {
      if |pieces[j]| != 0 {
        kept := kept + [pieces[j]];
      }
      assert pieces[..j + 1][..j] == pieces[..j];
      j := j + 1;
    }
    assert pieces[..j] == pieces;
  }

  // ---------------------------------------------------------------------
  // Reading numbers from the token list
  // ---------------------------------------------------------------------

  /** `Convert.ToSingle` and `Convert.ToInt32`: None where they would throw. */
  datatype Parsers = Parsers(toSingle: string -> Option<real>, toInt32: string -> Option<int>)

  /**
   * Why a read fails: `List<string>`'s indexer throws for an index outside
   * the list, the converters throw on text that is not a number.
   */
  datatype LoadError = OutOfRange(index: int) | NotANumber(index: int)

  function ReadInt(p: Parsers, toks: seq<string>, j: int): (r: Result<int, LoadError>)
    ensures r.Failure? <==> !(0 <= j < |toks|) || p.toInt32(toks[j]).None?
    ensures r.Success? ==> r.value == p.toInt32(toks[j]).value
  {
    if !(0 <= j < |toks|) then Failure(OutOfRange(j))
    else match p.toInt32(toks[j])
      case None => Failure(NotANumber(j))
      case Some(v) => Success(v)
  }

  function ReadReal(p: Parsers, toks: seq<string>, j: int): (r: Result<real, LoadError>)
    ensures r.Failure? <==> !(0 <= j < |toks|) || p.toSingle(toks[j]).None?
    ensures r.Success? ==> r.value == p.toSingle(toks[j]).value
  {
    if !(0 <= j < |toks|) then Failure(OutOfRange(j))
    else match p.toSingle(toks[j])
      case None => Failure(NotANumber(j))
      case Some(v) => Success(v)
  }

  /** The tokens j .. j + m - 1 exist and all parse as floats. */
  ghost predicate RealsAt(p: Parsers, toks: seq<string>, j: int, m: nat) {
    0 <= j && j + m <= |toks| && forall t :: j <= t < j + m ==> p.toSingle(toks[t]).Some?
  }

  /** m floats read from consecutive tokens starting at j, stopping at the first failure. */
  function ReadReals(p: Parsers, toks: seq<string>, j: int, m: nat): (r: Result<seq<real>, LoadError>)
    decreases m
  {
    if m == 0 then Success([])
    else
      var x :- ReadReal(p, toks, j);
      var xs :- ReadReals(p, toks, j + 1, m - 1);
      Success([x] + xs)
  }

  /** xs are the values of the tokens from j on, one per token. */
  ghost predicate RealsFrom(p: Parsers, toks: seq<string>, j: int, xs: seq<real>) {
    forall t :: 0 <= t < |xs| ==> 0 <= j + t < |toks| && p.toSingle(toks[j + t]) == Some(xs[t])
  }

  /**
   * Reading succeeds exactly when every token in the range exists and parses,
   * and then yields their values in order.
   */
  lemma {:induction false} ReadRealsSpec(p: Parsers, toks: seq<string>, j: int, m: nat)
    ensures ReadReals(p, toks, j, m).Success? <==> (m == 0 || RealsAt(p, toks, j, m))
    ensures ReadReals(p, toks, j, m).Success? ==>
      var xs := ReadReals(p, toks, j, m).value;
      |xs| == m && RealsFrom(p, toks, j, xs)
    decreases m
  {
    if m > 0 {
      ReadRealsSpec(p, toks, j + 1, m - 1);
      if ReadReal(p, toks, j).Success? && ReadReals(p, toks, j + 1, m - 1).Success? {
        var xs := ReadReals(p, toks, j, m).value;
        var ys := ReadReals(p, toks, j + 1, m - 1).value;
        forall t | 0 <= t < m ensures 0 <= j + t < |toks| && p.toSingle(toks[j + t]) == Some(xs[t]) {
          if t > 0 {
            assert xs[t] == ys[t - 1];
          }
        }
        if m - 1 > 0 {
          assert RealsAt(p, toks, j + 1, m - 1);
        }
        assert RealsAt(p, toks, j, m);
      } else {
        assert !RealsAt(p, toks, j, m);
      }
    }
  }

  /** A count below zero makes the `for k < count` loop run no times. */
  function Times(count: int): nat {
    if count < 0 then 0 else count
  }

  // ---------------------------------------------------------------------
  // Scanning for blocks
  // ---------------------------------------------------------------------

  /** The three header words the scans look for, matched exactly. */
  const MeshHeader: string := "Mesh"
  const NormalsHeader: string := "MeshNormals"
  const UVHeader: string := "MeshTextureCoords"
  const LBrace: string := "{"

  /** Where a block's count sits: after the header, the brace and `skip` comment tokens. */
  function CountAt(i: int, skip: int): int { i + 2 + skip }

  /** Whether position i starts a block: the header word followed by `{`. */
  predicate OpensBlock(toks: seq<string>, header: string, i: int)
    requires 0 <= i < |toks| - 1
  {
    toks[i] == header && toks[i + 1] == LBrace
  }

  /** What one scan returns: the floats it read and the position after the last block. */
  datatype Scan = Scan(values: seq<real>, next: int)

  /**
   * The `for i < tokens.Count` loop of `readMeshTokens`, `readMeshNormalTokens`
   * and `readMeshTextureUVTokens`: at every `header {`, read the count after
   * `skip` comment tokens and then `width` floats per item.  The scan goes on
   * from i + 1, not from the end of the block.  The `&&` reads the lookahead
   * only when the header word matches, so a header word in last place fails.
   */
  function ScanFrom(p: Parsers, toks: seq<string>, header: string, skip: nat, width: nat,
                    i: nat, acc: Scan): (r: Result<Scan, LoadError>)
    decreases |toks| - i
  {
    if i >= |toks| then Success(acc)
    else if toks[i] != header then ScanFrom(p, toks, header, skip, width, i + 1, acc)
    else if i + 1 >= |toks| then Failure(OutOfRange(i + 1))
    else if toks[i + 1] != LBrace then ScanFrom(p, toks, header, skip, width, i + 1, acc)
    else
      var c := CountAt(i, skip);
      var count :- ReadInt(p, toks, c);
      var xs :- ReadReals(p, toks, c + 1, width * Times(count));
      ScanFrom(p, toks, header, skip, width, i + 1, Scan(acc.values + xs, c + 1 + width * Times(count)))
  }

  /** r is r0 with the floats pre in front: the same outcome, the same failure, pre ahead of r0's floats. */
  predicate Extends(r: Result<Scan, LoadError>, r0: Result<Scan, LoadError>, pre: seq<real>) {
    && r.Success? == r0.Success?
    && (r.Success? ==> r.value == Scan(pre + r0.value.values, r0.value.next))
    && (r.Failure? ==> r.error == r0.error)
  }

  /** Two results that extend a common one by pre + xs and by xs extend each other by pre. */
  lemma ExtendsCompose(a: Result<Scan, LoadError>, b: Result<Scan, LoadError>, r: Result<Scan, LoadError>,
                       pre: seq<real>, xs: seq<real>)
    requires Extends(a, r, pre + xs) && Extends(b, r, xs)
    ensures Extends(a, b, pre)
  {
    if r.Success? {
      assert pre + xs + r.value.values == pre + (xs + r.value.values);
    }
  }

  /**
   * The scan only appends: starting from any earlier floats gives those floats
   * followed by what a scan from nothing gives, and the same failure if any.
   */
  lemma {:induction false} ScanAppends(p: Parsers, toks: seq<string>, header: string, skip: nat, width: nat,
                                       i: nat, acc: Scan)
    ensures Extends(ScanFrom(p, toks, header, skip, width, i, acc),
                    ScanFrom(p, toks, header, skip, width, i, Scan([], acc.next)), acc.values)
    decreases |toks| - i
  {
    if i < |toks| {
      if toks[i] != header || (i + 1 < |toks| && toks[i + 1] != LBrace) {
        ScanAppends(p, toks, header, skip, width, i + 1, acc);
      } else if i + 1 < |toks| {
        var c := CountAt(i, skip);
        var rc := ReadInt(p, toks, c);
        if rc.Success? {
          var xs := ReadReals(p, toks, c + 1, width * Times(rc.value));
          if xs.Success? {
            var nx := c + 1 + width * Times(rc.value);
            assert ScanFrom(p, toks, header, skip, width, i, acc)
                == ScanFrom(p, toks, header, skip, width, i + 1, Scan(acc.values + xs.value, nx));
            assert [] + xs.value == xs.value;
            assert ScanFrom(p, toks, header, skip, width, i, Scan([], acc.next))
                == ScanFrom(p, toks, header, skip, width, i + 1, Scan(xs.value, nx));
            ScanAppends(p, toks, header, skip, width, i + 1, Scan(acc.values + xs.value, nx));
            ScanAppends(p, toks, header, skip, width, i + 1, Scan(xs.value, nx));
            ExtendsCompose(ScanFrom(p, toks, header, skip, width, i + 1, Scan(acc.values + xs.value, nx)),
                           ScanFrom(p, toks, header, skip, width, i + 1, Scan(xs.value, nx)),
                           ScanFrom(p, toks, header, skip, width, i + 1, Scan([], nx)), acc.values, xs.value);
          }
        }
      }
    }
  }

  /** Without a `header {` pair ahead, the scan reads nothing and changes nothing. */
  lemma {:induction false} NoHeaderNoBlock(p: Parsers, toks: seq<string>, header: string, skip: nat, width: nat,
                                           i: nat, acc: Scan)
    requires forall t :: i <= t < |toks| ==> toks[t] != header
    ensures ScanFrom(p, toks, header, skip, width, i, acc) == Success(acc)
    decreases |toks| - i
  {
    if i < |toks| {
      NoHeaderNoBlock(p, toks, header, skip, width, i + 1, acc);
    }
  }

  /**
   * At a `header {` pair the scan reads the count `skip` tokens past the brace
   * and then exactly width * count floats from the tokens right after it; a
   * successful scan keeps them, in order, right after the earlier floats.
   */
  lemma BlockRead(p: Parsers, toks: seq<string>, header: string, skip: nat, width: nat, i: nat, acc: Scan)
    requires i + 1 < |toks| && OpensBlock(toks, header, i)
    requires ScanFrom(p, toks, header, skip, width, i, acc).Success?
    ensures var c := CountAt(i, skip);
            && c < |toks| && p.toInt32(toks[c]).Some?
            && var m := width * Times(p.toInt32(toks[c]).value);
               && (m == 0 || RealsAt(p, toks, c + 1, m))
               && var vs := ScanFrom(p, toks, header, skip, width, i, acc).value.values;
                  && |acc.values| + m <= |vs|
                  && vs[..|acc.values|] == acc.values
                  && RealsFrom(p, toks, c + 1, vs[|acc.values|..|acc.values| + m])
  {
    var c := CountAt(i, skip);
    var count := ReadInt(p, toks, c).value;
    var m := width * Times(count);
    ReadRealsSpec(p, toks, c + 1, m);
    var xs := ReadReals(p, toks, c + 1, m).value;
    var nx := c + 1 + m;
    ScanAppends(p, toks, header, skip, width, i + 1, Scan(acc.values + xs, nx));
    var vs := ScanFrom(p, toks, header, skip, width, i, acc).value.values;
    var tail := ScanFrom(p, toks, header, skip, width, i + 1, Scan([], nx)).value.values;
    assert vs == acc.values + xs + tail;
    assert vs[|acc.values|..|acc.values| + m] == xs;
  }

  /**
   * A successful scan passes through every later position: scanning from i is
   * scanning from k with some accumulator that extends the one at i.
   */
  lemma {:induction false} ScanReaches(p: Parsers, toks: seq<string>, header: string, skip: nat, width: nat,
                                       i: nat, k: nat, acc: Scan) returns (acc2: Scan)
    requires i <= k <= |toks|
    requires ScanFrom(p, toks, header, skip, width, i, acc).Success?
    ensures ScanFrom(p, toks, header, skip, width, k, acc2) == ScanFrom(p, toks, header, skip, width, i, acc)
    ensures |acc.values| <= |acc2.values| && acc2.values[..|acc.values|] == acc.values
    decreases k - i
  {
    if i == k {
      acc2 := acc;
    } else {
      var acc1 := acc;
      if toks[i] == header && i + 1 < |toks| && toks[i + 1] == LBrace {
        var c := CountAt(i, skip);
        var count := ReadInt(p, toks, c).value;
        var xs := ReadReals(p, toks, c + 1, width * Times(count)).value;
        acc1 := Scan(acc.values + xs, c + 1 + width * Times(count));
      }
      assert ScanFrom(p, toks, header, skip, width, i, acc) == ScanFrom(p, toks, header, skip, width, i + 1, acc1);
      acc2 := ScanReaches(p, toks, header, skip, width, i + 1, k, acc1);
      assert acc2.values[..|acc.values|] == acc1.values[..|acc1.values|][..|acc.values|];
    }
  }

  /**
   * Every block of a successful scan from the start is read: its count parses
   * and width * count floats, read from the tokens after the count, appear in
   * order among the scan's floats.
   */
  lemma BlockInScan(p: Parsers, toks: seq<string>, header: string, skip: nat, width: nat, i: nat) returns (s: nat)
    requires i + 1 < |toks| && OpensBlock(toks, header, i)
    requires ScanFrom(p, toks, header, skip, width, 0, Scan([], 0)).Success?
    ensures var c := CountAt(i, skip);
            && c < |toks| && p.toInt32(toks[c]).Some?
            && var m := width * Times(p.toInt32(toks[c]).value);
               && (m == 0 || RealsAt(p, toks, c + 1, m))
               && var vs := ScanFrom(p, toks, header, skip, width, 0, Scan([], 0)).value.values;
                  s + m <= |vs| && RealsFrom(p, toks, c + 1, vs[s..s + m])
  {
    var acc := ScanReaches(p, toks, header, skip, width, 0, i, Scan([], 0));
    BlockRead(p, toks, header, skip, width, i, acc);
    var c := CountAt(i, skip);
    var m := width * Times(p.toInt32(toks[c]).value);
    s := |acc.values|;
  }

  /** The block headers differ from one another, so no scan ever fires on another's header. */
  lemma HeadersDistinct()
    ensures MeshHeader != NormalsHeader && MeshHeader != UVHeader && NormalsHeader != UVHeader
  {
    assert |MeshHeader| == 4 && |NormalsHeader| == 11 && |UVHeader| == 17;
  }

  // ---------------------------------------------------------------------
  // Faces (`readIndexTokens`)
  // ---------------------------------------------------------------------

  /**
   * f faces starting at j: for each, step over the vertex count (it is never
   * read, so never checked) and read three ints.
   */
  function ReadFaces(p: Parsers, toks: seq<string>, j: int, f: nat): (r: Result<seq<int>, LoadError>)
    decreases f
  {
    if f == 0 then Success([])
    else
      var a :- ReadInt(p, toks, j + 1);
      var b :- ReadInt(p, toks, j + 2);
      var c :- ReadInt(p, toks, j + 3);
      var rest :- ReadFaces(p, toks, j + 4, f - 1);
      Success([a, b, c] + rest)
  }

  /** Token position of corner t (0, 1 or 2) of face k when faces start at j. */
  function CornerAt(j: int, k: int, t: int): int { j + 4 * k + 1 + t }

  /** xs holds three ints per face, each the value of its corner's token. */
  ghost predicate FacesFrom(p: Parsers, toks: seq<string>, j: int, f: nat, xs: seq<int>) {
    && |xs| == 3 * f
    && forall k, t :: 0 <= k < f && 0 <= t < 3 ==>
         0 <= CornerAt(j, k, t) < |toks| && p.toInt32(toks[CornerAt(j, k, t)]) == Some(xs[3 * k + t])
  }

  /** A successful read yields three ints per face, each from its corner's token. */
  lemma {:induction false} ReadFacesSpec(p: Parsers, toks: seq<string>, j: int, f: nat)
    ensures ReadFaces(p, toks, j, f).Success? ==> FacesFrom(p, toks, j, f, ReadFaces(p, toks, j, f).value)
    decreases f
  {
    if f > 0 && ReadFaces(p, toks, j, f).Success? {
      ReadFacesSpec(p, toks, j + 4, f - 1);
      var xs := ReadFaces(p, toks, j, f).value;
      var rest := ReadFaces(p, toks, j + 4, f - 1).value;
      assert xs == [xs[0], xs[1], xs[2]] + rest;
      forall k, t | 0 <= k < f && 0 <= t < 3
        ensures 0 <= CornerAt(j, k, t) < |toks| && p.toInt32(toks[CornerAt(j, k, t)]) == Some(xs[3 * k + t])
      {
        if k > 0 {
          assert CornerAt(j, k, t) == CornerAt(j + 4, k - 1, t);
          assert xs[3 * k + t] == rest[3 * (k - 1) + t];
        }
      }
    }
  }

  /** A face whose corner token is missing fails the whole read. */
  lemma {:induction false} ReadFacesOverrun(p: Parsers, toks: seq<string>, j: int, f: nat)
    requires 0 <= j && f > 0 && CornerAt(j, f - 1, 2) >= |toks|
    ensures ReadFaces(p, toks, j, f).Failure?
    decreases f
  {
    if f > 1 {
      assert CornerAt(j + 4, f - 2, 2) == CornerAt(j, f - 1, 2);
      ReadFacesOverrun(p, toks, j + 4, f - 1);
    }
  }

  lemma TripleMod(f: nat)
    ensures (3 * f) % 3 == 0
  {
  }

  /**
   * `readIndexTokens(pos)`: the face count at pos, then its faces; the indices
   * grow by three per face and nothing else changes.
   */
  function ReadIndexTokens(p: Parsers, l: Loader, pos: int): (r: Result<Loader, LoadError>)
    ensures r.Success? ==>
      && 0 <= pos < |l.tokens| && p.toInt32(l.tokens[pos]).Some?
      && var f := Times(p.toInt32(l.tokens[pos]).value);
         && r.value == l.(indices := r.value.indices)
         && |r.value.indices| == |l.indices| + 3 * f
         && r.value.indices[..|l.indices|] == l.indices
         && FacesFrom(p, l.tokens, pos + 1, f, r.value.indices[|l.indices|..])
    ensures r.Success? ==> (|r.value.indices| - |l.indices|) % 3 == 0
    ensures !(0 <= pos < |l.tokens|) ==> r == Failure(OutOfRange(pos))
  {
    var count :- ReadInt(p, l.tokens, pos);
    var xs :- ReadFaces(p, l.tokens, pos + 1, Times(count));
    ReadFacesSpec(p, l.tokens, pos + 1, Times(count));
    TripleMod(Times(count));
    var r := l.(indices := l.indices + xs);
    assert r.indices[..|l.indices|] == l.indices && r.indices[|l.indices|..] == xs;
    Success(r)
  }

  // ---------------------------------------------------------------------
  // The three block readers
  // ---------------------------------------------------------------------

  /**
   * `readMeshTokens`: read every `Mesh {` block's vertices (3 header tokens, a
   * count, 3 floats per vertex), then the faces from just after the last
   * block's vertices, or from position 0 when there is no block.
   */
  function ReadMeshTokens(p: Parsers, l: Loader): (r: Result<Loader, LoadError>)
    ensures var s := ScanFrom(p, l.tokens, MeshHeader, 3, 3, 0, Scan([], 0));
      r.Success? <==> s.Success? && ReadIndexTokens(p, l.(vertices := l.vertices + s.value.values), s.value.next).Success?
    ensures r.Success? ==>
      var s := ScanFrom(p, l.tokens, MeshHeader, 3, 3, 0, Scan([], 0));
      && s.Success?
      && r.value.tokens == l.tokens && r.value.normals == l.normals && r.value.texUV == l.texUV
      && r.value.vertices == l.vertices + s.value.values
      && ReadIndexTokens(p, l.(vertices := r.value.vertices), s.value.next) == r
  {
    var s :- ScanFrom(p, l.tokens, MeshHeader, 3, 3, 0, Scan([], 0));
    ReadIndexTokens(p, l.(vertices := l.vertices + s.values), s.next)
  }

  /** `readMeshNormalTokens`: every `MeshNormals {` block, 3 header tokens, 3 floats per normal. */
  function ReadMeshNormalTokens(p: Parsers, l: Loader): (r: Result<Loader, LoadError>)
    ensures var s := ScanFrom(p, l.tokens, NormalsHeader, 3, 3, 0, Scan([], 0));
      && r.Success? == s.Success?
      && (r.Success? ==> r.value == l.(normals := l.normals + s.value.values))
  {
    var s :- ScanFrom(p, l.tokens, NormalsHeader, 3, 3, 0, Scan([], 0));
    Success(l.(normals := l.normals + s.values))
  }

  /** `readMeshTextureUVTokens`: every `MeshTextureCoords {` block, 4 header tokens, 2 floats per pair. */
  function ReadMeshTextureUVTokens(p: Parsers, l: Loader): (r: Result<Loader, LoadError>)
    ensures var s := ScanFrom(p, l.tokens, UVHeader, 4, 2, 0, Scan([], 0));
      && r.Success? == s.Success?
      && (r.Success? ==> r.value == l.(texUV := l.texUV + s.value.values))
  {
    var s :- ScanFrom(p, l.tokens, UVHeader, 4, 2, 0, Scan([], 0));
    Success(l.(texUV := l.texUV + s.values))
  }

  /**
   * Every `MeshNormals {` block is read by a successful `readMeshNormalTokens`:
   * its count sits five tokens on, and 3 * count floats from the tokens after
   * it are appended, in order, to the normals.
   */
  lemma NormalsBlock(p: Parsers, l: Loader, i: nat) returns (s: nat)
    requires i + 1 < |l.tokens| && OpensBlock(l.tokens, NormalsHeader, i)
    requires ReadMeshNormalTokens(p, l).Success?
    ensures var c := i + 5;
            && c < |l.tokens| && p.toInt32(l.tokens[c]).Some?
            && var m := 3 * Times(p.toInt32(l.tokens[c]).value);
               var ns := ReadMeshNormalTokens(p, l).value.normals;
               |l.normals| <= s && s + m <= |ns| && RealsFrom(p, l.tokens, c + 1, ns[s..s + m])
  {
    var t := BlockInScan(p, l.tokens, NormalsHeader, 3, 3, i);
    var m := 3 * Times(p.toInt32(l.tokens[i + 5]).value);
    var vs := ScanFrom(p, l.tokens, NormalsHeader, 3, 3, 0, Scan([], 0)).value.values;
    s := |l.normals| + t;
    assert ReadMeshNormalTokens(p, l).value.normals[s..s + m] == vs[t..t + m];
  }

  /**
   * Every `MeshTextureCoords {` block is read by a successful
   * `readMeshTextureUVTokens`: its count sits six tokens on, and 2 * count
   * floats from the tokens after it are appended, in order, to texUV.
   */
  lemma UVBlock(p: Parsers, l: Loader, i: nat) returns (s: nat)
    requires i + 1 < |l.tokens| && OpensBlock(l.tokens, UVHeader, i)
    requires ReadMeshTextureUVTokens(p, l).Success?
    ensures var c := i + 6;
            && c < |l.tokens| && p.toInt32(l.tokens[c]).Some?
            && var m := 2 * Times(p.toInt32(l.tokens[c]).value);
               var uv := ReadMeshTextureUVTokens(p, l).value.texUV;
               |l.texUV| <= s && s + m <= |uv| && RealsFrom(p, l.tokens, c + 1, uv[s..s + m])
  {
    var t := BlockInScan(p, l.tokens, UVHeader, 4, 2, i);
    var m := 2 * Times(p.toInt32(l.tokens[i + 6]).value);
    var vs := ScanFrom(p, l.tokens, UVHeader, 4, 2, 0, Scan([], 0)).value.values;
    s := |l.texUV| + t;
    assert ReadMeshTextureUVTokens(p, l).value.texUV[s..s + m] == vs[t..t + m];
  }

  /** Reading the normals twice appends the same normals twice: earlier results are never replaced. */
  lemma NormalsTwice(p: Parsers, l: Loader)
    requires ReadMeshNormalTokens(p, l).Success?
    ensures var l1 := ReadMeshNormalTokens(p, l).value;
            && ReadMeshNormalTokens(p, l1).Success?
            && var d := l1.normals[|l.normals|..];
               ReadMeshNormalTokens(p, l1).value.normals == l.normals + d + d
  {
    var l1 := ReadMeshNormalTokens(p, l).value;
    var d := ScanFrom(p, l.tokens, NormalsHeader, 3, 3, 0, Scan([], 0)).value.values;
    assert l1.normals[|l.normals|..] == d;
  }

  /** A token list with no `Mesh` word yields no vertices, whatever other blocks it holds. */
  lemma NoMeshNoVertices(p: Parsers, l: Loader)
    requires forall t :: 0 <= t < |l.tokens| ==> l.tokens[t] != MeshHeader
    ensures ReadMeshTokens(p, l) == ReadIndexTokens(p, l, 0)
  {
    NoHeaderNoBlock(p, l.tokens, MeshHeader, 3, 3, 0, Scan([], 0));
    assert l.vertices + [] == l.vertices;
    assert l.(vertices := l.vertices) == l;
  }

  /**
   * A header word as the last token makes the scan fail, whatever blocks come
   * before it: reaching it, the `tokens[i + 1]` lookahead runs off the list.
   * With no earlier header word, that lookahead is the failure.
   */
  lemma HeaderLast(p: Parsers, toks: seq<string>, header: string, skip: nat, width: nat, acc: Scan)
    requires |toks| > 0 && toks[|toks| - 1] == header
    ensures ScanFrom(p, toks, header, skip, width, 0, acc).Failure?
    ensures (forall t :: 0 <= t < |toks| - 1 ==> toks[t] != header) ==>
      ScanFrom(p, toks, header, skip, width, 0, acc) == Failure(OutOfRange(|toks|))
  {
    LastFails(p, toks, header, skip, width, 0, acc);
  }

  lemma {:induction false} LastFails(p: Parsers, toks: seq<string>, header: string, skip: nat, width: nat,
                                     i: nat, acc: Scan)
    requires i < |toks| && toks[|toks| - 1] == header
    ensures ScanFrom(p, toks, header, skip, width, i, acc).Failure?
    ensures (forall t :: i <= t < |toks| - 1 ==> toks[t] != header) ==>
      ScanFrom(p, toks, header, skip, width, i, acc) == Failure(OutOfRange(|toks|))
    decreases |toks| - i
  {
    if i < |toks| - 1 {
      if toks[i] == header && toks[i + 1] == LBrace {
        var c := CountAt(i, skip);
        var rc := ReadInt(p, toks, c);
        if rc.Success? {
          var xs := ReadReals(p, toks, c + 1, width * Times(rc.value));
          if xs.Success? {
            LastFails(p, toks, header, skip, width, i + 1, Scan(acc.values + xs.value, c + 1 + width * Times(rc.value)));
          }
        }
      } else {
        LastFails(p, toks, header, skip, width, i + 1, acc);
      }
    }
  }

  /** A block whose count runs past the end of the list fails the whole scan. */
  lemma CountOverrun(p: Parsers, toks: seq<string>, header: string, skip: nat, width: nat, i: nat, acc: Scan)
    requires i + 1 < |toks| && OpensBlock(toks, header, i)
    requires var c := CountAt(i, skip);
      c < |toks| && p.toInt32(toks[c]).Some? && c + 1 + width * Times(p.toInt32(toks[c]).value) > |toks|
    ensures ScanFrom(p, toks, header, skip, width, i, acc).Failure?
  {
    var c := CountAt(i, skip);
    ReadRealsSpec(p, toks, c + 1, width * Times(p.toInt32(toks[c]).value));
  }
}
