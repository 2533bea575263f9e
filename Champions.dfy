/**
 * The champion table: the id-to-name map built from the `Champions` enum and
 * extended by updates, the alias rewrite applied to fetched aliases, name
 * lookup and capitalisation, and the choice of the auto-update interval.
 *
 * The CommunityDragon download and the timers are left to the caller: an
 * update receives the already-fetched `(id, alias)` pairs, or `None` when the
 * download failed.
 */
module Champions {
  import opened Js

  /** The numeric entries of the `Champions` enum, in declaration order. */
  const CHAMPIONS: seq<(string, int)> := [
    ("EMPTY_CHAMPION", 0), ("ANNIE", 1), ("OLAF", 2), ("GALIO", 3),
    ("TWISTED_FATE", 4), ("XIN_ZHAO", 5), ("URGOT", 6), ("LEBLANC", 7),
    ("VLADIMIR", 8), ("FIDDLESTICKS", 9), ("KAYLE", 10), ("MASTER_YI", 11),
    ("ALISTAR", 12), ("RYZE", 13), ("SION", 14), ("SIVIR", 15),
    ("SORAKA", 16), ("TEEMO", 17), ("TRISTANA", 18), ("WARWICK", 19),
    ("NUNU", 20), ("MISS_FORTUNE", 21), ("ASHE", 22), ("TRYNDAMERE", 23),
    ("JAX", 24), ("MORGANA", 25), ("ZILEAN", 26), ("SINGED", 27),
    ("EVELYNN", 28), ("TWITCH", 29), ("KARTHUS", 30), ("CHOGATH", 31),
    ("AMUMU", 32), ("RAMMUS", 33), ("ANIVIA", 34), ("SHACO", 35),
    ("DR_MUNDO", 36), ("SONA", 37), ("KASSADIN", 38), ("IRELIA", 39),
    ("JANNA", 40), ("GANGPLANK", 41), ("CORKI", 42), ("KARMA", 43),
    ("TARIC", 44), ("VEIGAR", 45), ("TRUNDLE", 48), ("SWAIN", 50),
    ("CAITLYN", 51), ("BLITZCRANK", 53), ("MALPHITE", 54), ("KATARINA", 55),
    ("NOCTURNE", 56), ("MAOKAI", 57), ("RENEKTON", 58), ("JARVAN_IV", 59),
    ("ELISE", 60), ("ORIANNA", 61), ("MONKEY_KING", 62), ("BRAND", 63),
    ("LEE_SIN", 64), ("VAYNE", 67), ("RUMBLE", 68), ("CASSIOPEIA", 69),
    ("SKARNER", 72), ("HEIMERDINGER", 74), ("NASUS", 75), ("NIDALEE", 76),
    ("UDYR", 77), ("POPPY", 78), ("GRAGAS", 79), ("PANTHEON", 80),
    ("EZREAL", 81), ("MORDEKAISER", 82), ("YORICK", 83), ("AKALI", 84),
    ("KENNEN", 85), ("GAREN", 86), ("LEONA", 89), ("MALZAHAR", 90),
    ("TALON", 91), ("RIVEN", 92), ("KOG_MAW", 96), ("SHEN", 98),
    ("LUX", 99), ("XERATH", 101), ("SHYVANA", 102), ("AHRI", 103),
    ("GRAVES", 104), ("FIZZ", 105), ("VOLIBEAR", 106), ("RENGAR", 107),
    ("VARUS", 110), ("NAUTILUS", 111), ("VIKTOR", 112), ("SEJUANI", 113),
    ("FIORA", 114), ("ZIGGS", 115), ("LULU", 117), ("DRAVEN", 119),
    ("HECARIM", 120), ("KHAZIX", 121), ("DARIUS", 122), ("JAYCE", 126),
    ("LISSANDRA", 127), ("DIANA", 131), ("QUINN", 133), ("SYNDRA", 134),
    ("AURELION_SOL", 136), ("KAYN", 141), ("ZOE", 142), ("ZYRA", 143),
    ("KAISA", 145), ("GNAR", 150), ("ZAC", 154), ("YASUO", 157),
    ("VELKOZ", 161), ("TALIYAH", 163), ("CAMILLE", 164), ("BRAUM", 201),
    ("JHIN", 202), ("KINDRED", 203), ("JINX", 222), ("TAHM_KENCH", 223),
    ("LUCIAN", 236), ("ZED", 238), ("KLED", 240), ("EKKO", 245),
    ("QIYANA", 246), ("VI", 254), ("AATROX", 266), ("NAMI", 267),
    ("AZIR", 268), ("YUUMI", 350), ("THRESH", 412), ("ILLAOI", 420),
    ("REKSAI", 421), ("IVERN", 427), ("KALISTA", 429), ("BARD", 432),
    ("RAKAN", 497), ("XAYAH", 498), ("ORNN", 516), ("SYLAS", 517),
    ("NEEKO", 518), ("APHELIOS", 523), ("PYKE", 555), ("SENNA", 235),
    ("SETT", 875), ("LILLIA", 876), ("YONE", 777), ("SAMIRA", 360),
    ("SERAPHINE", 147), ("RELL", 526), ("VIEGO", 234), ("GWEN", 887),
    ("AKSHAN", 166), ("VEX", 711), ("ZERI", 221), ("RENATA_GLASC", 888),
    ("BELVETH", 200), ("NILAH", 895), ("KSANTE", 897), ("MILIO", 902),
    ("HWEI", 910), ("AURORA", 893), ("AMBESSA", 799), ("MEL", 800),
    ("NAAFIRI", 950), ("SMOLDER", 901), ("BRIAR", 233), ("YUNARA", 804)
  ]

  // ---------------------------------------------------------------------------
  // The id map
  // ---------------------------------------------------------------------------

  /** The map the enum's entries give: each value, as an object key, names its entry; a later entry wins. */
  function FromEnum(entries: seq<(string, int)>): map<string, string>
  {
    if entries == [] then map[]
    else
      var last := entries[|entries| - 1];
      FromEnum(entries[..|entries| - 1])[IntToString(last.1) := last.0]
  }

  /** An entry whose value no later entry repeats is found under its value. */
  lemma {:induction false} FromEnumLookup(entries: seq<(string, int)>, i: nat)
    requires i < |entries|
    requires forall j :: i < j < |entries| ==> entries[j].1 != entries[i].1
    ensures IntToString(entries[i].1) in FromEnum(entries)
    ensures FromEnum(entries)[IntToString(entries[i].1)] == entries[i].0
  {
    if i < |entries| - 1 {
      var prefix := entries[..|entries| - 1];
      IntToStringInjective(entries[|entries| - 1].1, entries[i].1);
      FromEnumLookup(prefix, i);
    }
  }

  /** A value no entry has is not a key of the map. */
  lemma {:induction false} FromEnumMissing(entries: seq<(string, int)>, id: int)
    requires forall j :: 0 <= j < |entries| ==> entries[j].1 != id
    ensures IntToString(id) !in FromEnum(entries)
  {
    if entries != [] {
      IntToStringInjective(entries[|entries| - 1].1, id);
      FromEnumMissing(entries[..|entries| - 1], id);
    }
  }

  /** Every key of the map is the rendering of an enum value. */
  lemma {:induction false} FromEnumKeys(entries: seq<(string, int)>, k: string)
    requires k in FromEnum(entries)
    ensures exists j :: 0 <= j < |entries| && k == IntToString(entries[j].1)
  {
    var last := entries[|entries| - 1];
    if k != IntToString(last.1) {
      FromEnumKeys(entries[..|entries| - 1], k);
      var j :| 0 <= j < |entries| - 1 && k == IntToString(entries[..|entries| - 1][j].1);
      assert k == IntToString(entries[j].1);
    }
  }

  /** The `forEach` that fills the map from the enum's entries, one write per entry. */
  method BuildIdMap(entries: seq<(string, int)>) returns (m: map<string, string>)
    ensures m == FromEnum(entries)
  {
    m := map[];
    var i := 0;
    while i < |entries|
      invariant 0 <= i <= |entries|
      invariant m == FromEnum(entries[..i])
    {
      var (key, value) := entries[i];
      assert entries[..i + 1][..i] == entries[..i];
      m := m[IntToString(value) := key];
      i := i + 1;
    }
    assert entries[..|entries|] == entries;
  }

  /** `getChampionName`: the non-empty entry under the id, else the error message. */
  function NameIn(m: map<string, string>, id: int): (r: Result<string, string>)
    ensures r.Ok? <==> IntToString(id) in m && m[IntToString(id)] != ""
    ensures r.Ok? ==> r.value == m[IntToString(id)]
    ensures r.Err? ==> r.error == "Invalid champ id " + IntToString(id)
  {
    var key := IntToString(id);
    if key in m && m[key] != "" then Ok(m[key]) else Err("Invalid champ id " + key)
  }

  /** The test case: `getChampionName(Champions.AATROX)` is "AATROX". */
  lemma AatroxResolves()
    ensures NameIn(FromEnum(CHAMPIONS), 266) == Ok("AATROX")
  {
    assert CHAMPIONS[130] == ("AATROX", 266);
    assert forall j :: 130 < j < |CHAMPIONS| ==> CHAMPIONS[j].1 != 266;
    FromEnumLookup(CHAMPIONS, 130);
  }

  /** Downloaded updates never rename an enum champion. */
  lemma AatroxSurvivesUpdates(fetched: seq<(int, string)>)
    ensures NameIn(UpdateAll(FromEnum(CHAMPIONS), fetched), 266) == Ok("AATROX")
  {
    AatroxResolves();
    UpdateKeeps(FromEnum(CHAMPIONS), fetched, IntToString(266));
  }

  /** An id that is not an enum value is rejected with its message. */
  lemma UnknownIdRejected(id: int)
    requires forall j :: 0 <= j < |CHAMPIONS| ==> CHAMPIONS[j].1 != id
    ensures NameIn(FromEnum(CHAMPIONS), id) == Err("Invalid champ id " + IntToString(id))
  {
    FromEnumMissing(CHAMPIONS, id);
  }

  // ----- The alias rewrite ----------------------------------------------------

  /** `s.replace(/[a-z][A-Z]/g, m => m[0] + '_' + m[1])`: matches found left to right, without overlap. */
  function InsertUnderscores(s: string): string
  {
    if |s| >= 2 && IsLower(s[0]) && IsUpper(s[1]) then [s[0], '_', s[1]] + InsertUnderscores(s[2..])
    else if s == [] then []
    else [s[0]] + InsertUnderscores(s[1..])
  }

  /** The key a fetched alias is stored under: camel case to upper snake case. */
  function AliasKey(alias: string): string
  {
    ToUpper(InsertUnderscores(alias))
  }

  /** `s` without its underscores. */
  function Unscored(s: string): string
  {
    if s == [] then [] else (if s[0] == '_' then [] else [s[0]]) + Unscored(s[1..])
  }

  predicate LowerUpperAt(s: string, i: int)
  {
    0 <= i && i + 1 < |s| && IsLower(s[i]) && IsUpper(s[i + 1])
  }

  lemma {:induction false} UnscoredAppend(a: string, b: string)
    ensures Unscored(a + b) == Unscored(a) + Unscored(b)
  {
    if a == [] {
      assert a + b == b;
    } else {
      assert (a + b)[0] == a[0];
      assert (a + b)[1..] == a[1..] + b;
      UnscoredAppend(a[1..], b);
    }
  }

  /** The rewrite only inserts underscores. */
  lemma {:induction false} InsertOnlyUnderscores(s: string)
    ensures Unscored(InsertUnderscores(s)) == Unscored(s)
  {
    if |s| >= 2 && IsLower(s[0]) && IsUpper(s[1]) {
      InsertOnlyUnderscores(s[2..]);
      UnscoredAppend([s[0], '_', s[1]], InsertUnderscores(s[2..]));
      assert s == [s[0], s[1]] + s[2..];
      UnscoredAppend([s[0], s[1]], s[2..]);
    } else if s != [] {
      InsertOnlyUnderscores(s[1..]);
      UnscoredAppend([s[0]], InsertUnderscores(s[1..]));
      assert s == [s[0]] + s[1..];
      UnscoredAppend([s[0]], s[1..]);
    }
  }

  lemma {:induction false} InsertFirst(s: string)
    requires s != []
    ensures InsertUnderscores(s) != [] && InsertUnderscores(s)[0] == s[0]
  {
  }

  lemma {:induction false} InsertLonger(s: string)
    ensures |InsertUnderscores(s)| >= |s|
  {
    if |s| >= 2 && IsLower(s[0]) && IsUpper(s[1]) {
      InsertLonger(s[2..]);
    } else if s != [] {
      InsertLonger(s[1..]);
    }
  }

  /** After the rewrite no lower-case letter is directly followed by an upper-case one. */
  lemma {:induction false} NoLowerUpperLeft(s: string)
    ensures forall i :: !LowerUpperAt(InsertUnderscores(s), i)
  {
    var r := InsertUnderscores(s);
    if |s| >= 2 && IsLower(s[0]) && IsUpper(s[1]) {
      var t := InsertUnderscores(s[2..]);
      NoLowerUpperLeft(s[2..]);
      forall i | 0 <= i
        ensures !LowerUpperAt(r, i)
      {
        if 3 <= i && i + 1 < |r| {
          assert r[i] == t[i - 3];
          assert !LowerUpperAt(t, i - 3);
        }
      }
    } else if s != [] {
      var t := InsertUnderscores(s[1..]);
      NoLowerUpperLeft(s[1..]);
      forall i | 0 <= i
        ensures !LowerUpperAt(r, i)
      {
        if i >= 1 {
          assert !LowerUpperAt(t, i - 1);
        } else if |s| >= 2 {
          InsertFirst(s[1..]);
        }
      }
    }
  }

  /** A string without a lower-upper pair is left as it is. */
  lemma {:induction false} InsertNothing(s: string)
    requires forall i :: !LowerUpperAt(s, i)
    ensures InsertUnderscores(s) == s
  {
    if s != [] {
      assert !LowerUpperAt(s, 0);
      forall i | true
        ensures !LowerUpperAt(s[1..], i)
      {
        assert !LowerUpperAt(s, i + 1);
      }
      InsertNothing(s[1..]);
    }
  }

  /** Rewriting twice is rewriting once. */
  lemma InsertIdempotent(s: string)
    ensures InsertUnderscores(InsertUnderscores(s)) == InsertUnderscores(s)
  {
    NoLowerUpperLeft(s);
    InsertNothing(InsertUnderscores(s));
  }

  /** The alias the CommunityDragon list gives Wukong is stored under the enum's name. */
  lemma AliasMonkeyKing()
    ensures AliasKey("MonkeyKing") == "MONKEY_KING"
  {
    assert AliasKey("MonkeyKing") == ToUpper("Monkey_King") by {
      InsertMonkeyKing();
    }
    assert ToUpper("Monkey_King") == "MONKEY_KING" by {
      UpperAppend("Monkey", "_King");
      assert "Monkey" + "_King" == "Monkey_King";
      UpperMonkey();
      UpperKing();
    }
  }

  lemma UpperMonkey()
    ensures ToUpper("Monkey") == "MONKEY"
  {
    UpperAppend("Mon", "key");
    assert "Mon" + "key" == "Monkey";
    assert ToUpper("Mon") == "MON";
    assert ToUpper("key") == "KEY";
  }

  lemma UpperKing()
    ensures ToUpper("_King") == "_KING"
  {
    UpperAppend("_K", "ing");
    assert "_K" + "ing" == "_King";
    assert ToUpper("_K") == "_K";
    assert ToUpper("ing") == "ING";
  }

  lemma UpperAppend(a: string, b: string)
    ensures ToUpper(a + b) == ToUpper(a) + ToUpper(b)
  {
  }

  lemma InsertMonkeyKing()
    ensures InsertUnderscores("MonkeyKing") == "Monkey_King"
  {
    InsertKeyKing();
    assert InsertUnderscores("nkeyKing") == "nkey_King";
    assert InsertUnderscores("onkeyKing") == "onkey_King";
    assert InsertUnderscores("MonkeyKing") == "Monkey_King";
  }

  lemma InsertKeyKing()
    ensures InsertUnderscores("keyKing") == "key_King"
  {
    InsertKing();
    assert InsertUnderscores("eyKing") == "ey_King";
  }

  lemma InsertKing()
    ensures InsertUnderscores("yKing") == "y_King"
  {
    InsertNothing("ing");
    assert "yKing"[2..] == "ing";
  }

  /** A pair of capitals after a lower-case letter gets one underscore. */
  lemma AliasJarvanIV()
    ensures AliasKey("JarvanIV") == "JARVAN_IV"
  {
    InsertNothing("V");
    assert InsertUnderscores("nIV") == "n_IV";
    assert InsertUnderscores("anIV") == "an_IV";
    assert InsertUnderscores("vanIV") == "van_IV";
    assert InsertUnderscores("rvanIV") == "rvan_IV";
    assert InsertUnderscores("arvanIV") == "arvan_IV";
    assert InsertUnderscores("JarvanIV") == "Jarvan_IV";
  }

  // ----- The update rule ------------------------------------------------------

  /** One fetched champion: an id whose entry is absent or empty gets the alias key, and the alias key gets its existing value or the id. */
  function UpdateOne(m: map<string, string>, id: int, alias: string): map<string, string>
  {
    var key := IntToString(id);
    var championAlias := AliasKey(alias);
    if key in m && m[key] != "" then m
    else
      var m1 := m[key := championAlias];
      m1[championAlias := if championAlias in m1 && m1[championAlias] != "" then m1[championAlias] else key]
  }

  function UpdateAll(m: map<string, string>, fetched: seq<(int, string)>): map<string, string>
    decreases |fetched|
  {
    if fetched == [] then m
    else UpdateAll(UpdateOne(m, fetched[0].0, fetched[0].1), fetched[1..])
  }

  /** A new id is stored with its alias key, and the alias key names the id unless it already named something. */
  lemma UpdateOneAdds(m: map<string, string>, id: int, alias: string)
    requires IntToString(id) !in m || m[IntToString(id)] == ""
    ensures var r := UpdateOne(m, id, alias);
            && r[IntToString(id)] == AliasKey(alias)
            && (AliasKey(alias) != IntToString(id) ==>
                  r[AliasKey(alias)] == if AliasKey(alias) in m && m[AliasKey(alias)] != "" then m[AliasKey(alias)] else IntToString(id))
  {
  }

  /** After the update a new id resolves to its alias key, unless the alias is empty. */
  lemma UpdatedIdResolves(m: map<string, string>, id: int, alias: string)
    requires IntToString(id) !in m || m[IntToString(id)] == ""
    ensures NameIn(UpdateOne(m, id, alias), id) == if alias == "" then Err("Invalid champ id " + IntToString(id)) else Ok(AliasKey(alias))
  {
    UpdateOneAdds(m, id, alias);
    InsertLonger(alias);
  }

  /** An id that already has a name is left alone, and so is the rest of the map. */
  lemma UpdateOneKnown(m: map<string, string>, id: int, alias: string)
    requires IntToString(id) in m && m[IntToString(id)] != ""
    ensures UpdateOne(m, id, alias) == m
  {
  }

  /** Updates never overwrite or remove a non-empty entry. */
  lemma {:induction false} UpdateKeeps(m: map<string, string>, fetched: seq<(int, string)>, k: string)
    requires k in m && m[k] != ""
    ensures k in UpdateAll(m, fetched) && UpdateAll(m, fetched)[k] == m[k]
    decreases |fetched|
  {
    if fetched != [] {
      UpdateKeeps(UpdateOne(m, fetched[0].0, fetched[0].1), fetched[1..], k);
    }
  }

  /** Updates never remove a key. */
  lemma {:induction false} UpdateGrows(m: map<string, string>, fetched: seq<(int, string)>)
    ensures m.Keys <= UpdateAll(m, fetched).Keys
    decreases |fetched|
  {
    if fetched != [] {
      UpdateGrows(UpdateOne(m, fetched[0].0, fetched[0].1), fetched[1..]);
    }
  }

  // ----- Capitalisation -------------------------------------------------------

  predicate AllLetters(s: string) { forall i :: 0 <= i < |s| ==> IsLetter(s[i]) }

  /** The longest prefix of ASCII letters. */
  function LetterPrefix(s: string): (r: string)
    ensures |r| <= |s| && r == s[..|r|]
    ensures AllLetters(r)
    ensures |r| < |s| ==> !IsLetter(s[|r|])
  {
    if s != [] && IsLetter(s[0]) then [s[0]] + LetterPrefix(s[1..]) else []
  }

  /**
   * One mark per letter of `s`, in order: whether that letter starts a run, that
   * is, whether the character before it is not a letter (`afterLetter` says
   * whether the character before `s` is one).
   */
  function RunStarts(s: string, afterLetter: bool): (marks: seq<bool>)
    ensures |marks| == |Letters(s)|
  {
    if s == [] then []
    else if IsLetter(s[0]) then [!afterLetter] + RunStarts(s[1..], true)
    else RunStarts(s[1..], false)
  }

  /** The mark of the letter at position `p` is set exactly when the character before it is not a letter. */
  lemma {:induction false} RunStartAt(s: string, afterLetter: bool, p: nat)
    requires p < |s| && IsLetter(s[p])
    ensures |Letters(s[..p])| < |RunStarts(s, afterLetter)|
    ensures RunStarts(s, afterLetter)[|Letters(s[..p])|] == !(if p == 0 then afterLetter else IsLetter(s[p - 1]))
    decreases p
  {
    if p > 0 {
      var t := s[1..];
      RunStartAt(t, IsLetter(s[0]), p - 1);
      assert s[..p] == [s[0]] + t[..p - 1];
      LettersAppend([s[0]], t[..p - 1]);
      assert RunStarts(s, afterLetter) == (if IsLetter(s[0]) then [!afterLetter] else []) + RunStarts(t, IsLetter(s[0]));
      assert p >= 2 ==> t[p - 2] == s[p - 1];
    }
  }

  /** `n` unset marks. */
  function Falses(n: nat): (marks: seq<bool>)
    ensures |marks| == n && forall i :: 0 <= i < n ==> !marks[i]
  {
    if n == 0 then [] else [false] + Falses(n - 1)
  }

  /** The same marks read off a list of runs: set on the first letter of each run. */
  function RunHeads(runs: seq<string>): (marks: seq<bool>)
    requires forall k :: 0 <= k < |runs| ==> runs[k] != []
    ensures |marks| == |Concat(runs)|
  {
    if runs == [] then [] else [true] + Falses(|runs[0]| - 1) + RunHeads(runs[1..])
  }

  /** A run at the front of `s` and the marks of its letters. */
  lemma {:induction false} RunStartsPrefix(s: string, afterLetter: bool)
    requires s != [] && IsLetter(s[0])
    ensures RunStarts(s, afterLetter)
         == [!afterLetter] + Falses(|LetterPrefix(s)| - 1) + RunStarts(s[|LetterPrefix(s)|..], false)
    decreases |s|
  {
    var t := s[1..];
    var p := LetterPrefix(t);
    var rest := RunStarts(t[|p|..], false);
    assert |LetterPrefix(s)| - 1 == |p| && s[|LetterPrefix(s)|..] == t[|p|..] by {
      assert LetterPrefix(s) == [s[0]] + p;
      SuffixAfterPrefix(s, |p|);
    }
    assert RunStarts(s, afterLetter) == [!afterLetter] + (Falses(|p|) + rest) by {
      assert RunStarts(s, afterLetter) == [!afterLetter] + RunStarts(t, true);
      if t == [] || !IsLetter(t[0]) {
        assert p == [];
        RunStartsAfterOther(t);
        assert Falses(0) + rest == rest;
      } else {
        RunStartsPrefix(t, true);
        assert Falses(|p|) == [false] + Falses(|p| - 1);
      }
    }
    AppendAssoc([!afterLetter], Falses(|p|), rest);
  }

  lemma AppendAssoc<T>(a: seq<T>, b: seq<T>, c: seq<T>)
    ensures a + (b + c) == a + b + c
  {
  }

  lemma RunStartsAfterOther(t: string)
    requires t == [] || !IsLetter(t[0])
    ensures RunStarts(t, true) == RunStarts(t, false)
  {
  }

  lemma SuffixAfterPrefix(s: string, n: nat)
    requires n < |s|
    ensures s[n + 1..] == s[1..][n..]
  {
  }

  /**
   * `s.match(/[a-zA-Z]+/g)`: the maximal runs of ASCII letters, left to right.
   * Together the runs are the letters of `s`, and a run starts exactly at a
   * letter whose predecessor is not a letter, so the runs are determined.
   */
  function LetterRuns(s: string): (runs: seq<string>)
    ensures forall k :: 0 <= k < |runs| ==> runs[k] != [] && AllLetters(runs[k])
    ensures Concat(runs) == Letters(s)
    ensures RunHeads(runs) == RunStarts(s, false)
    decreases |s|
  {
    if s == [] then []
    else if !IsLetter(s[0]) then LetterRuns(s[1..])
    else
      var run := LetterPrefix(s);
      LetterPrefixLetters(s);
      RunStartsPrefix(s, false);
      [run] + LetterRuns(s[|run|..])
  }

  /** `s` with everything but its ASCII letters removed. */
  function Letters(s: string): string
  {
    if s == [] then [] else (if IsLetter(s[0]) then [s[0]] else []) + Letters(s[1..])
  }

  function Concat(runs: seq<string>): string
  {
    if runs == [] then [] else runs[0] + Concat(runs[1..])
  }

  /** `run.toLowerCase().charAt(0).toUpperCase() + run.toLowerCase().substring(1)`. */
  function CapitalizeRun(run: string): (r: string)
    requires run != []
    ensures |r| == |run| && ToLower(r) == ToLower(run)
    ensures AllLetters(run) ==> AllLetters(r) && IsUpper(r[0]) && forall i :: 1 <= i < |r| ==> IsLower(r[i])
  {
    var lower := ToLower(run);
    [UpperChar(lower[0])] + lower[1..]
  }

  /** The capitalised runs joined: the letters of the runs, upper case exactly at each run's first letter. */
  function CapitalizeAll(runs: seq<string>): (r: string)
    requires forall k :: 0 <= k < |runs| ==> runs[k] != [] && AllLetters(runs[k])
    ensures AllLetters(r) && |r| == |Concat(runs)|
    ensures ToLower(r) == ToLower(Concat(runs))
    ensures forall i :: 0 <= i < |r| ==> (IsUpper(r[i]) <==> RunHeads(runs)[i])
    ensures runs != [] ==> r != [] && IsUpper(r[0])
  {
    if runs == [] then []
    else
      var c := CapitalizeRun(runs[0]);
      var rest := CapitalizeAll(runs[1..]);
      ToLowerAppend(c, rest);
      ToLowerAppend(runs[0], Concat(runs[1..]));
      c + rest
  }

  /**
   * The capitalisation read letter by letter: a letter that starts a run is
   * upper-cased, every other letter lower-cased, and everything else dropped.
   */
  function CaseByRun(s: string, afterLetter: bool): (r: string)
    ensures AllLetters(r) && |r| == |Letters(s)|
    ensures ToLower(r) == ToLower(Letters(s))
    ensures forall i :: 0 <= i < |r| ==> (IsUpper(r[i]) <==> RunStarts(s, afterLetter)[i])
  {
    if s == [] then []
    else if IsLetter(s[0]) then
      var c := if afterLetter then LowerChar(s[0]) else UpperChar(s[0]);
      var rest := CaseByRun(s[1..], true);
      PrependLetter(c, rest, s[0], Letters(s[1..]), !afterLetter, RunStarts(s[1..], true));
      [c] + rest
    else CaseByRun(s[1..], false)
  }

  /** The step of `CaseByRun` on a letter. */
  lemma PrependLetter(c: char, rest: string, x: char, letters: string, mark: bool, marks: seq<bool>)
    requires IsLetter(x) && IsLetter(c) && LowerChar(c) == LowerChar(x) && (IsUpper(c) <==> mark)
    requires AllLetters(rest) && |rest| == |letters| == |marks| && ToLower(rest) == ToLower(letters)
    requires forall i :: 0 <= i < |rest| ==> (IsUpper(rest[i]) <==> marks[i])
    ensures AllLetters([c] + rest) && ToLower([c] + rest) == ToLower([x] + letters)
    ensures forall i :: 0 <= i < |rest| + 1 ==> (IsUpper(([c] + rest)[i]) <==> ([mark] + marks)[i])
  {
    ToLowerAppend([c], rest);
    ToLowerAppend([x], letters);
  }

  /** Two strings of letters that agree up to case, and on where the upper case is, are equal. */
  lemma SameCase(a: string, b: string)
    requires AllLetters(a) && AllLetters(b) && |a| == |b| && ToLower(a) == ToLower(b)
    requires forall i :: 0 <= i < |a| ==> (IsUpper(a[i]) <==> IsUpper(b[i]))
    ensures a == b
  {
    forall i | 0 <= i < |a|
      ensures a[i] == b[i]
    {
      assert ToLower(a)[i] == ToLower(b)[i];
    }
  }

  /** The two names the capitalisation spells differently. */
  function SpecialCase(name: string): (r: string)
    ensures ToLower(r) == ToLower(name)
    ensures name != "Reksai" && name != "JarvanIv" ==> r == name
  {
    if name == "Reksai" then "RekSai"
    else if name == "JarvanIv" then "JarvanIV"
    else name
  }

  /**
   * `getChampionNameCapital` on a name: `None` when the name has no letter, since
   * `match` then returns null; otherwise the letter-by-letter capitalisation,
   * with the two special spellings.
   */
  function Capital(name: string): (r: Option<string>)
    ensures r.None? <==> Letters(name) == []
    ensures r.Some? ==> r.value == SpecialCase(CaseByRun(name, false))
    ensures r.Some? ==> r.value != [] && AllLetters(r.value) && IsUpper(r.value[0])
  {
    var runs := LetterRuns(name);
    if runs == [] then None
    else
      SameCase(CapitalizeAll(runs), CaseByRun(name, false));
      Some(SpecialCase(CapitalizeAll(runs)))
  }

  /** The argument of `getChampionNameCapital`. */
  datatype ChampionRef = ById(id: int) | ByName(name: string)

  const NO_LETTER_ERROR := "Cannot read properties of null (reading 'map')"

  /** `typeof champ === 'number' ? getChampionName(champ) : champ`. */
  function Named(m: map<string, string>, champ: ChampionRef): Result<string, string>
  {
    match champ
    case ById(id) => NameIn(m, id)
    case ByName(n) => Ok(n)
  }

  /** `getChampionNameCapital` against a map: the lookup's error, the null-match TypeError, or the name. */
  function CapitalIn(m: map<string, string>, champ: ChampionRef): (r: Result<string, string>)
    ensures champ.ById? && NameIn(m, champ.id).Err? ==> r == NameIn(m, champ.id)
    ensures Named(m, champ).Err? ==> r == Named(m, champ)
    ensures Named(m, champ).Ok? && Letters(Named(m, champ).value) == [] ==> r == Err(NO_LETTER_ERROR)
    ensures Named(m, champ).Ok? && Letters(Named(m, champ).value) != []
            ==> r == Ok(SpecialCase(CaseByRun(Named(m, champ).value, false)))
    ensures r.Ok? ==> r.value != [] && AllLetters(r.value) && IsUpper(r.value[0])
  {
    match Named(m, champ)
    case Err(e) => Err(e)
    case Ok(n) =>
      match Capital(n)
      case None => Err(NO_LETTER_ERROR)
      case Some(c) => Ok(c)
  }

  lemma {:induction false} LettersAppend(a: string, b: string)
    ensures Letters(a + b) == Letters(a) + Letters(b)
  {
    if a == [] {
      assert a + b == b;
    } else {
      var head := if IsLetter(a[0]) then [a[0]] else [];
      assert (a + b)[0] == a[0];
      assert (a + b)[1..] == a[1..] + b;
      LettersAppend(a[1..], b);
      calc {
        Letters(a + b);
        head + Letters(a[1..] + b);
        head + (Letters(a[1..]) + Letters(b));
        (head + Letters(a[1..])) + Letters(b);
      }
    }
  }

  lemma {:induction false} LettersOfLetters(a: string)
    requires AllLetters(a)
    ensures Letters(a) == a
  {
    if a != [] {
      LettersOfLetters(a[1..]);
    }
  }

  lemma LetterPrefixLetters(s: string)
    ensures Letters(s) == LetterPrefix(s) + Letters(s[|LetterPrefix(s)|..])
  {
    var p := LetterPrefix(s);
    assert s == p + s[|p|..];
    LettersAppend(p, s[|p|..]);
    LettersOfLetters(p);
  }

  lemma ToLowerAppend(a: string, b: string)
    ensures ToLower(a + b) == ToLower(a) + ToLower(b)
  {
  }

  /**
   * Apart from the two special spellings, the capitalised name keeps the name's
   * letters up to case, and the letter at position `p` comes out upper case
   * exactly when the character before it is not a letter.
   */
  lemma CapitalUpperAtRunStarts(name: string, p: nat)
    requires p < |name| && IsLetter(name[p])
    requires CaseByRun(name, false) != "Reksai" && CaseByRun(name, false) != "JarvanIv"
    ensures Capital(name).Some?
    ensures ToLower(Capital(name).value) == ToLower(Letters(name))
    ensures |Letters(name[..p])| < |Capital(name).value|
    ensures IsUpper(Capital(name).value[|Letters(name[..p])|]) <==> (p == 0 || !IsLetter(name[p - 1]))
  {
    RunStartAt(name, false, p);
  }

  lemma RunsOfMonkeyKing()
    ensures LetterRuns("MONKEY_KING") == ["MONKEY", "KING"]
  {
    PrefixOfMonkeyKing();
    assert "MONKEY_KING"[6..] == "_KING";
    RunsOfKing();
    RunsStep("MONKEY_KING", "_KING", "MONKEY", ["KING"]);
  }

  /** A run at the front of `s`, then the runs of the rest. */
  lemma RunsStep(s: string, rest: string, run: string, runs: seq<string>)
    requires s != [] && IsLetter(s[0]) && LetterPrefix(s) == run
    requires s[|run|..] == rest && LetterRuns(rest) == runs
    ensures LetterRuns(s) == [run] + runs
  {
  }

  lemma PrefixOfMonkeyKing()
    ensures LetterPrefix("MONKEY_KING") == "MONKEY"
  {
    PrefixOfKeyKing();
    assert LetterPrefix("NKEY_KING") == "NKEY";
    assert LetterPrefix("ONKEY_KING") == "ONKEY";
  }

  lemma PrefixOfKeyKing()
    ensures LetterPrefix("KEY_KING") == "KEY"
  {
    assert LetterPrefix("Y_KING") == "Y";
    assert LetterPrefix("EY_KING") == "EY";
  }

  lemma RunsOfKing()
    ensures LetterRuns("_KING") == ["KING"]
  {
    assert LetterPrefix("KING") == "KING";
    assert "KING"[4..] == [];
    assert LetterRuns("KING") == ["KING"];
  }

  lemma CapitalizeMonkeyKing()
    ensures CapitalizeAll(["MONKEY", "KING"]) == "MonkeyKing"
  {
    CapitalizeTwo("MONKEY", "KING");
    CapitalizeMonkey();
    assert CapitalizeRun("KING") == "King" by {
      assert ToLower("KING") == "king";
    }
  }

  lemma CapitalizeMonkey()
    ensures CapitalizeRun("MONKEY") == "Monkey"
  {
    assert ToLower("MONKEY") == "monkey";
  }

  lemma CapitalizeTwo(a: string, b: string)
    requires a != [] && AllLetters(a) && b != [] && AllLetters(b)
    ensures CapitalizeAll([a, b]) == CapitalizeRun(a) + CapitalizeRun(b)
  {
    assert [a, b][1..] == [b];
    assert [b][1..] == [];
  }

  /** The enum name of Wukong capitalises back to the CommunityDragon alias. */
  lemma CapitalMonkeyKing()
    ensures Capital("MONKEY_KING") == Some("MonkeyKing")
  {
    RunsOfMonkeyKing();
    CapitalizeMonkeyKing();
    assert SpecialCase("MonkeyKing") == "MonkeyKing";
  }

  lemma RunsOfJarvanIV()
    ensures LetterRuns("JARVAN_IV") == ["JARVAN", "IV"]
  {
    PrefixOfJarvanIV();
    assert "JARVAN_IV"[6..] == "_IV";
    RunsOfIV();
    RunsStep("JARVAN_IV", "_IV", "JARVAN", ["IV"]);
  }

  lemma PrefixOfJarvanIV()
    ensures LetterPrefix("JARVAN_IV") == "JARVAN"
  {
    assert LetterPrefix("N_IV") == "N";
    assert LetterPrefix("AN_IV") == "AN";
    assert LetterPrefix("VAN_IV") == "VAN";
  }

  lemma RunsOfIV()
    ensures LetterRuns("_IV") == ["IV"]
  {
    assert LetterPrefix("IV") == "IV";
    assert "IV"[2..] == [];
    assert LetterRuns("IV") == ["IV"];
  }

  lemma CapitalizeJarvanIV()
    ensures CapitalizeAll(["JARVAN", "IV"]) == "JarvanIv"
  {
    CapitalizeTwo("JARVAN", "IV");
    assert CapitalizeRun("JARVAN") == "Jarvan" by {
      assert ToLower("JARVAN") == "jarvan";
    }
    assert CapitalizeRun("IV") == "Iv" by {
      assert ToLower("IV") == "iv";
    }
  }

  /** "JARVAN_IV" would capitalise to "JarvanIv"; the special case restores "JarvanIV". */
  lemma CapitalJarvanIV()
    ensures Capital("JARVAN_IV") == Some("JarvanIV")
  {
    RunsOfJarvanIV();
    CapitalizeJarvanIV();
  }

  /** "REKSAI" would capitalise to "Reksai"; the special case gives "RekSai". */
  lemma CapitalRekSai()
    ensures Capital("REKSAI") == Some("RekSai")
  {
    RunsOfRekSai();
    CapitalizeRekSai();
  }

  lemma RunsOfRekSai()
    ensures LetterRuns("REKSAI") == ["REKSAI"]
  {
    assert LetterPrefix("REKSAI") == "REKSAI";
    assert "REKSAI"[6..] == [];
  }

  lemma CapitalizeRekSai()
    ensures CapitalizeAll(["REKSAI"]) == "Reksai"
  {
    assert ["REKSAI"][1..] == [];
    assert CapitalizeRun("REKSAI") == "Reksai" by {
      assert ToLower("REKSAI") == "reksai";
    }
  }

  /** A name without letters makes `match` return null, so no name comes back. */
  lemma CapitalWithoutLetters()
    ensures Capital("42") == None
  {
    assert LetterRuns("2") == [];
  }

  // ---------------------------------------------------------------------------
  // Auto-update interval
  // ---------------------------------------------------------------------------

  /** `DAILY_DELAY`, 24 hours counted in milliseconds. */
  const DAILY_DELAY := 1000 * 60 * 60 * 24

  /**
   * `UPDATE_CHAMPION_IDS` from the environment variable: 0 when it is unset or
   * empty, `DAILY_DELAY` when it is not a number, else `Number(x) | 0`.
   */
  function ParseUpdateChampionIds(env: Option<string>): (r: int)
    ensures env.None? || env == Some("") ==> r == 0
    ensures r == DAILY_DELAY || -TWO_31 <= r < TWO_31
  {
    match env
    case None => 0
    case Some(x) =>
      if x == "" then 0
      else match StringToNumber(x)
        case None => DAILY_DELAY
        case Some(n) => ToInt32(n)
  }

  /** A decimal number of seconds below 2^31 is read as itself. */
  lemma ParseNumeral(n: nat)
    requires n < TWO_31
    ensures ParseUpdateChampionIds(Some(NatToString(n))) == n
  {
    var s := NatToString(n);
    NumberOfNatToString(n);
    assert StringToNumber(s) == Some(n as real);
    assert Truncate(n as real) == n;
    assert n % TWO_32 == n by {
      assert 0 <= n < TWO_32;
    }
    assert ToInt32(n as real) == n;
  }

  /** A value that is not a number, such as "true", falls back to the daily delay. */
  lemma ParseNonNumeric()
    ensures ParseUpdateChampionIds(Some("true")) == DAILY_DELAY
  {
    assert TrimEnd(TrimStart("true")) == "true";
    assert DigitPrefix("true") == [];
  }

  /** The interval `startChampionUpdates` uses and returns: the argument if truthy, else the parsed variable if non-zero, else the daily delay. */
  function RefreshInterval(delay: Option<real>, updateIds: int): (r: real)
    ensures r != 0.0
    ensures r == DAILY_DELAY as real || r == updateIds as real || delay == Some(r)
    ensures delay.Some? && delay.value != 0.0 ==> r == delay.value
    ensures (delay.None? || delay.value == 0.0) && updateIds != 0 ==> r == updateIds as real
    ensures (delay.None? || delay.value == 0.0) && updateIds == 0 ==> r == DAILY_DELAY as real
  {
    if delay.Some? && delay.value != 0.0 then delay.value
    else if updateIds != 0 then updateIds as real
    else DAILY_DELAY as real
  }

  /** The load-time start: the updates start exactly when the parsed variable is non-zero, with that interval. */
  function AutoStart(updateIds: int): (r: Option<real>)
    ensures r.Some? <==> updateIds != 0
    ensures r.Some? ==> r.value == updateIds as real
  {
    if updateIds != 0 then Some(RefreshInterval(Some(updateIds as real), updateIds)) else None
  }

  /** A zero delay does start the updates, with the parsed or the daily interval. */
  lemma ZeroDelayStarts(updateIds: int)
    ensures RefreshInterval(Some(0.0), updateIds) == RefreshInterval(None, updateIds)
    ensures RefreshInterval(Some(0.0), 0) == DAILY_DELAY as real
  {
  }

  // ---------------------------------------------------------------------------
  // The module's state
  // ---------------------------------------------------------------------------

  /** `championIdMap` and `championUpdateInterval`; the interval is kept as the period it was scheduled with. */
  class ChampionRegistry {
    var idMap: map<string, string>
    var updateInterval: Option<real>

    /** Module initialisation: each enum entry is written under its value, in declaration order. */
    constructor ()
      ensures idMap == FromEnum(CHAMPIONS) && updateInterval == None
    {
      var m := BuildIdMap(CHAMPIONS);
      idMap := m;
      updateInterval := None;
    }

    /** `updateChampionIDs` once the download settled: `None` if it failed, and then nothing changes. */
    method UpdateChampionIds(fetched: Option<seq<(int, string)>>)
      modifies this
      ensures idMap == match fetched case None => old(idMap) case Some(f) => UpdateAll(old(idMap), f)
      ensures updateInterval == old(updateInterval)
    {
      if fetched.None? {
        return;
      }
      var champs := fetched.value;
      var i := 0;
      while i < |champs|
        invariant 0 <= i <= |champs|
        invariant UpdateAll(idMap, champs[i..]) == UpdateAll(old(idMap), champs)
        invariant updateInterval == old(updateInterval)
      {
        var (id, alias) := champs[i];
        var championAlias := AliasKey(alias);
        var key := IntToString(id);
        if !(key in idMap && idMap[key] != "") {
          idMap := idMap[key := championAlias];
          idMap := idMap[championAlias := if championAlias in idMap && idMap[championAlias] != "" then idMap[championAlias] else key];
        }
        assert champs[i..][1..] == champs[i + 1..];
        i := i + 1;
      }
    }

    /** `startChampionUpdates`: one update, then the interval is scheduled and returned. */
    method StartChampionUpdates(delay: Option<real>, updateIds: int, fetched: Option<seq<(int, string)>>)
      returns (refreshInterval: real)
      modifies this
      ensures idMap == match fetched case None => old(idMap) case Some(f) => UpdateAll(old(idMap), f)
      ensures refreshInterval == RefreshInterval(delay, updateIds) && updateInterval == Some(refreshInterval)
    {
      UpdateChampionIds(fetched);
      refreshInterval := RefreshInterval(delay, updateIds);
      updateInterval := Some(refreshInterval);
    }

    /** `stopChampionUpdates`. */
    method StopChampionUpdates()
      modifies this
      ensures updateInterval == None && idMap == old(idMap)
    {
      if updateInterval.Some? {
        updateInterval := None;
      }
    }

    function GetChampionName(id: int): Result<string, string>
      reads this
    {
      NameIn(idMap, id)
    }

    function GetChampionNameCapital(champ: ChampionRef): Result<string, string>
      reads this
    {
      CapitalIn(idMap, champ)
    }
  }
}
