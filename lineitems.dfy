/** The three operations of the page on its list of line items: adding a
    blank line (tilfoejLinje), removing a line (fjernLinje) and editing one
    field of a line (opdaterLinje). Each builds a new list from the old one. */
module LineItems {
  import opened Invoice

  /** `Math.max(...linjer.map(l => l.id), 0)`. */
  function MaxId(s: seq<FakturaLinje>): (m: int)
    ensures m >= 0
    ensures forall i :: 0 <= i < |s| ==> s[i].id <= m
    ensures m == 0 || exists i :: 0 <= i < |s| && s[i].id == m
  {
    if s == [] then 0
    else
      var rest := MaxId(s[1..]);
      if s[0].id > rest then s[0].id else rest
  }

  /** No two lines share an id. */
  predicate UniqueIds(s: seq<FakturaLinje>) {
    forall i, j :: 0 <= i < j < |s| ==> s[i].id != s[j].id
  }

  /** What the page maintains of its list: at least one line, unique ids. */
  predicate ValidLinjer(s: seq<FakturaLinje>) {
    |s| >= 1 && UniqueIds(s)
  }

  /** tilfoejLinje: append a blank line whose id is one more than the largest
      id present (or 1 when no id is positive). */
  function TilfoejLinje(s: seq<FakturaLinje>): (r: seq<FakturaLinje>)
    ensures |r| == |s| + 1 && r[..|s|] == s
    ensures r[|s|] == BlankLinje(MaxId(s) + 1)
    ensures forall i :: 0 <= i < |s| ==> s[i].id < r[|s|].id
  {
    s + [BlankLinje(MaxId(s) + 1)]
  }

  /** `linjer.filter(l => l.id !== id)`. */
  function Without(s: seq<FakturaLinje>, id: int): (r: seq<FakturaLinje>)
    ensures |r| <= |s|
    ensures forall l :: l in r <==> l in s && l.id != id
  {
    if s == [] then []
    else (if s[0].id != id then [s[0]] else []) + Without(s[1..], id)
  }

  /** fjernLinje: drop every line with the given id, unless only one line is
      left, in which case nothing changes. */
  function FjernLinje(s: seq<FakturaLinje>, id: int): (r: seq<FakturaLinje>)
    ensures |s| <= 1 ==> r == s
    ensures forall l :: l in r <==> l in s && (|s| <= 1 || l.id != id)
  {
    if |s| > 1 then Without(s, id) else s
  }

  /** The field an edit of a line replaces, with its new value (the
      `keyof FakturaLinje` argument of opdaterLinje together with its value). */
  datatype Felt = Beskrivelse(tekst: string) | Antal(antal: real) | Enhedspris(pris: real)

  /** `{ ...l, [felt]: vaerdi }`: only the named field takes the new value. */
  function Saet(l: FakturaLinje, f: Felt): (r: FakturaLinje)
    ensures r.id == l.id
    ensures r.beskrivelse == (if f.Beskrivelse? then f.tekst else l.beskrivelse)
    ensures r.antal == (if f.Antal? then f.antal else l.antal)
    ensures r.enhedspris == (if f.Enhedspris? then f.pris else l.enhedspris)
  {
    match f
    case Beskrivelse(t) => l.(beskrivelse := t)
    case Antal(a) => l.(antal := a)
    case Enhedspris(p) => l.(enhedspris := p)
  }

  /** opdaterLinje: set one field of every line with the given id. */
  function OpdaterLinje(s: seq<FakturaLinje>, id: int, f: Felt): (r: seq<FakturaLinje>)
    ensures |r| == |s|
    ensures forall i :: 0 <= i < |s| ==> r[i].id == s[i].id
    ensures forall i :: 0 <= i < |s| ==> r[i] == if s[i].id == id then Saet(s[i], f) else s[i]
  {
    if s == [] then [] else [if s[0].id == id then Saet(s[0], f) else s[0]] + OpdaterLinje(s[1..], id, f)
  }

  // ---------------------------------------------------------------------
  // Adding

  /** Adding keeps the list valid: the new id is fresh. */
  lemma TilfoejLinjeValid(s: seq<FakturaLinje>)
    requires UniqueIds(s)
    ensures ValidLinjer(TilfoejLinje(s))
  {
    var r := TilfoejLinje(s);
    forall i, j | 0 <= i < j < |r| ensures r[i].id != r[j].id {
      if j < |s| { assert r[i] == s[i] && r[j] == s[j]; }
    }
  }

  /** When the ids are 1, 2, ..., |s| in order, the largest is |s|. */
  lemma MaxIdOfCounting(s: seq<FakturaLinje>)
    requires forall i :: 0 <= i < |s| ==> s[i].id == i + 1
    ensures MaxId(s) == |s|
  {
    var m := MaxId(s);
    if s != [] {
      assert s[|s| - 1].id == |s|;
      if m != 0 {
        var i :| 0 <= i < |s| && s[i].id == m;
      }
    }
  }

  /** Starting from the page's initial list, n successive additions give the
      ids 1, 2, ..., n + 1 in order. */
  lemma {:induction false} TilfoejLinjeIds(n: nat)
    ensures |AddedN(StartLinjer, n)| == n + 1
    ensures forall i :: 0 <= i <= n ==> AddedN(StartLinjer, n)[i].id == i + 1
  {
    if n > 0 {
      TilfoejLinjeIds(n - 1);
      var s := AddedN(StartLinjer, n - 1);
      MaxIdOfCounting(s);
      var r := AddedN(StartLinjer, n);
      assert r == s + [BlankLinje(n + 1)];
      forall i | 0 <= i <= n ensures r[i].id == i + 1 {
        if i < n { assert r[i] == s[i]; }
      }
    }
  }

  /** The list after n additions. */
  function AddedN(s: seq<FakturaLinje>, n: nat): (r: seq<FakturaLinje>)
    ensures |r| == |s| + n && r[..|s|] == s
  {
    if n == 0 then s else TilfoejLinje(AddedN(s, n - 1))
  }

  // ---------------------------------------------------------------------
  // Removing

  /** A filter that drops nothing is the identity. */
  lemma {:induction false} WithoutAbsent(s: seq<FakturaLinje>, id: int)
    requires forall i :: 0 <= i < |s| ==> s[i].id != id
    ensures Without(s, id) == s
  {
    if s != [] {
      WithoutAbsent(s[1..], id);
    }
  }

  /** The filter works line by line, front to back: filtering two lists one
      after the other is filtering each and joining the results, so the
      lines it keeps stay in their order. */
  lemma {:induction false} WithoutAppend(a: seq<FakturaLinje>, b: seq<FakturaLinje>, id: int)
    ensures Without(a + b, id) == Without(a, id) + Without(b, id)
  {
    if a == [] {
      assert a + b == b;
    } else {
      assert (a + b)[0] == a[0];
      assert (a + b)[1..] == a[1..] + b;
      WithoutAppend(a[1..], b, id);
    }
  }

  /** Dropping the first line keeps the ids unique. */
  lemma UniqueIdsTail(s: seq<FakturaLinje>)
    requires UniqueIds(s) && s != []
    ensures UniqueIds(s[1..])
  {
    var t := s[1..];
    forall a, b | 0 <= a < b < |t| ensures t[a].id != t[b].id {
      assert t[a] == s[a + 1] && t[b] == s[b + 1];
    }
  }

  /** Dropping any one line keeps the ids unique. */
  lemma UniqueIdsRemove(s: seq<FakturaLinje>, i: nat)
    requires UniqueIds(s) && i < |s|
    ensures UniqueIds(s[..i] + s[i + 1..])
  {
    var r := s[..i] + s[i + 1..];
    forall a, b | 0 <= a < b < |r| ensures r[a].id != r[b].id {
      var a', b' := if a < i then a else a + 1, if b < i then b else b + 1;
      assert r[a] == s[a'] && r[b] == s[b'];
    }
  }

  lemma SplitAround(s: seq<FakturaLinje>, i: nat)
    requires 0 < i < |s|
    ensures s[..i] + s[i + 1..] == [s[0]] + (s[1..][..i - 1] + s[1..][i..])
  {
    assert s[1..][..i - 1] == s[1..i];
    assert s[1..][i..] == s[i + 1..];
    assert s[..i] == [s[0]] + s[1..i];
  }

  /** With unique ids, the filter removes exactly the one matching line and
      keeps the others in their order. */
  lemma {:induction false} WithoutUnique(s: seq<FakturaLinje>, i: nat)
    requires UniqueIds(s) && i < |s|
    ensures Without(s, s[i].id) == s[..i] + s[i + 1..]
  {
    var t := s[1..];
    if i == 0 {
      forall k | 0 <= k < |t| ensures t[k].id != s[0].id {
        assert t[k] == s[k + 1];
      }
      WithoutAbsent(t, s[0].id);
    } else {
      UniqueIdsTail(s);
      assert t[i - 1] == s[i];
      WithoutUnique(t, i - 1);
      assert s[0].id != s[i].id;
      SplitAround(s, i);
    }
  }

  /** fjernLinje is a no-op on a single remaining line. */
  lemma FjernLinjeLast(l: FakturaLinje, id: int)
    ensures FjernLinje([l], id) == [l]
  {
  }

  /** fjernLinje with an id no line has changes nothing. */
  lemma FjernLinjeAbsent(s: seq<FakturaLinje>, id: int)
    requires forall i :: 0 <= i < |s| ==> s[i].id != id
    ensures FjernLinje(s, id) == s
  {
    WithoutAbsent(s, id);
  }

  /** On a valid list of more than one line, removing the id of line i removes
      that line and only it, keeping the others in order. */
  lemma FjernLinjeRemovesOne(s: seq<FakturaLinje>, i: nat)
    requires ValidLinjer(s) && |s| > 1 && i < |s|
    ensures FjernLinje(s, s[i].id) == s[..i] + s[i + 1..]
  {
    WithoutUnique(s, i);
  }

  /** Removing keeps the list valid: never empty, ids still unique. */
  lemma FjernLinjeValid(s: seq<FakturaLinje>, id: int)
    requires ValidLinjer(s)
    ensures ValidLinjer(FjernLinje(s, id))
  {
    if |s| > 1 {
      if i :| 0 <= i < |s| && s[i].id == id {
        FjernLinjeRemovesOne(s, i);
        UniqueIdsRemove(s, i);
      } else {
        FjernLinjeAbsent(s, id);
      }
    }
  }

  // ---------------------------------------------------------------------
  // Editing

  /** opdaterLinje with an id no line has changes nothing. */
  lemma OpdaterLinjeAbsent(s: seq<FakturaLinje>, id: int, f: Felt)
    requires forall i :: 0 <= i < |s| ==> s[i].id != id
    ensures OpdaterLinje(s, id, f) == s
  {
  }

  /** Editing keeps the ids, so it keeps the list valid. */
  lemma OpdaterLinjeValid(s: seq<FakturaLinje>, id: int, f: Felt)
    requires ValidLinjer(s)
    ensures ValidLinjer(OpdaterLinje(s, id, f))
  {
  }

  /** On unique ids, editing line i's id changes line i alone. */
  lemma OpdaterLinjeUnique(s: seq<FakturaLinje>, i: nat, f: Felt)
    requires UniqueIds(s) && i < |s|
    ensures OpdaterLinje(s, s[i].id, f) == s[..i] + [Saet(s[i], f)] + s[i + 1..]
  {
    var r := OpdaterLinje(s, s[i].id, f);
    var t := s[..i] + [Saet(s[i], f)] + s[i + 1..];
    assert |r| == |t|;
    forall k | 0 <= k < |r| ensures r[k] == t[k] {
      if k < i { assert s[k].id != s[i].id; }
      else if k > i { assert s[i].id != s[k].id; }
    }
  }

  /** Applying the same edit twice is applying it once. */
  lemma OpdaterLinjeIdempotent(s: seq<FakturaLinje>, id: int, f: Felt)
    ensures OpdaterLinje(OpdaterLinje(s, id, f), id, f) == OpdaterLinje(s, id, f)
  {
    var r := OpdaterLinje(s, id, f);
    var rr := OpdaterLinje(r, id, f);
    forall k | 0 <= k < |s| ensures rr[k] == r[k] {
      if s[k].id == id {
        assert Saet(Saet(s[k], f), f) == Saet(s[k], f);
      }
    }
  }

  // ---------------------------------------------------------------------
  // Any sequence of edits from the initial list

  /** A user action on the line-item list. */
  datatype Handling = Tilfoej | Fjern(id: int) | Opdater(id: int, felt: Felt)

  function Anvend(s: seq<FakturaLinje>, h: Handling): seq<FakturaLinje> {
    match h
    case Tilfoej => TilfoejLinje(s)
    case Fjern(id) => FjernLinje(s, id)
    case Opdater(id, f) => OpdaterLinje(s, id, f)
  }

  /** The list after the actions hs, in order. */
  function Spil(s: seq<FakturaLinje>, hs: seq<Handling>): seq<FakturaLinje>
    decreases |hs|
  {
    if hs == [] then s else Spil(Anvend(s, hs[0]), hs[1..])
  }

  /** Every action keeps the list valid... */
  lemma AnvendValid(s: seq<FakturaLinje>, h: Handling)
    requires ValidLinjer(s)
    ensures ValidLinjer(Anvend(s, h))
  {
    match h
    case Tilfoej => TilfoejLinjeValid(s);
    case Fjern(id) => FjernLinjeValid(s, id);
    case Opdater(id, f) => OpdaterLinjeValid(s, id, f);
  }

  /** ...so every list the page can reach, starting from its one-line initial
      list, has at least one line and unique ids. */
  lemma {:induction false} SpilValid(s: seq<FakturaLinje>, hs: seq<Handling>)
    requires ValidLinjer(s)
    ensures ValidLinjer(Spil(s, hs))
    decreases |hs|
  {
    if hs != [] {
      AnvendValid(s, hs[0]);
      SpilValid(Anvend(s, hs[0]), hs[1..]);
    }
  }

  lemma ReachableValid(hs: seq<Handling>)
    ensures ValidLinjer(Spil(StartLinjer, hs))
  {
    SpilValid(StartLinjer, hs);
  }

  /** Ids can be reused: add a line (id 2), remove it, add again, and the new
      line gets id 2 once more, because the next id is computed from the ids
      present, not from the ids ever issued. */
  lemma IdReused()
    ensures Spil(StartLinjer, [Tilfoej, Fjern(2), Tilfoej]) == [BlankLinje(1), BlankLinje(2)]
  {
    var s1 := TilfoejLinje(StartLinjer);
    assert s1 == [BlankLinje(1), BlankLinje(2)];
    var s2 := FjernLinje(s1, 2);
    FjernLinjeRemovesOne(s1, 1);
    assert s2 == [BlankLinje(1)];
    assert Spil(StartLinjer, [Tilfoej, Fjern(2), Tilfoej]) == Spil(s1, [Fjern(2), Tilfoej]);
    assert Spil(s1, [Fjern(2), Tilfoej]) == Spil(s2, [Tilfoej]);
  }
}
