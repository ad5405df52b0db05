/**
 * A sample unit card, read the way the code reads it.
 */
module ClassifierExample {
  import opened Text
  import opened CardClassifier

  /** The lines of a sample unit card. */
  const ExampleUnit: seq<string> :=
    ["UNIT", [Bullet] + " SOLDIER", "3", "4", "2", "Some effect text", "HAN SOLO"]

  /** A needle whose first character does not occur in `hay` is not contained in it. */
  lemma {:induction false} AbsentContains(hay: string, needle: string)
    requires needle != [] && needle[0] !in hay
    ensures !Contains(hay, needle)
    decreases |hay|
  {
    if hay != [] {
      assert hay[0] != needle[0];
      assert needle[0] !in hay[1..] by {
        assert forall c :: c in hay[1..] ==> c in hay;
      }
      AbsentContains(hay[1..], needle);
    }
  }

  /** A line without a dot, a copyright sign or a leading digit or `v` is no metadata. */
  lemma NotMetaLine(line: string)
    requires line != [] && '.' !in line && Copyright !in line
    requires !IsDigit(line[0]) && line[0] != 'v' && line[0] != 'V'
    requires line !in {"EN", "SYS", "HMW"}
    ensures !IsMeta(line)
  {
    assert '.' !in Lower(line) by {
      forall i | 0 <= i < |line| ensures Lower(line)[i] != '.' {
        assert line[i] != '.';
      }
    }
    AbsentContains(Lower(line), ".psd");
  }

  /** A line starting with a letter is no integer. */
  lemma NotIntLine(line: string)
    requires line != [] && (IsUpperChar(line[0]) || IsLowerChar(line[0]))
    ensures Ints([line]) == []
  {
    assert [line][..0] == [];
    assert ReplaceChar(line, MinusSign, '-')[0] == line[0];
  }

  /** A line of letters and spaces that starts with a letter is a name candidate. */
  lemma CandidateLine(line: string)
    requires line != [] && (IsUpperChar(line[0]) || IsLowerChar(line[0])) && line[0] != 'v' && line[0] != 'V'
    requires '.' !in line && Copyright !in line && line !in {"EN", "SYS", "HMW"}
    ensures NameCandidate(line)
  {
    NotMetaLine(line);
    NotIntLine(line);
  }

  lemma ExampleClean()
    ensures Clean(ExampleUnit)
  {
    var lines := ExampleUnit;
    forall j | 0 <= j < |lines| ensures lines[j] != [] && Stripped(lines[j]) {
      var l := lines[j];
      assert l[0] != ' ' && l[|l| - 1] != ' ';
      assert !IsSpace(l[0]) && !IsSpace(l[|l| - 1]);
    }
  }

  lemma HanUpper()
    ensures IsUpper("HAN SOLO")
  {
    assert "HAN SOLO"[0] == 'H';
  }

  lemma HanNoKind()
    ensures Bullet !in "HAN SOLO" && Upper("HAN SOLO") !in {"UNIT", "GROUND", "SPACE"}
  {
    assert |Upper("HAN SOLO")| == 8;
  }

  lemma TextNotUpper()
    ensures !IsUpper("Some effect text")
  {
    assert "Some effect text"[1] == 'o';
  }

  lemma ExampleBulletLine()
    ensures Bullet in ExampleUnit[1] && !IsMeta(ExampleUnit[1])
  {
    assert ExampleUnit[1][0] == Bullet;
    NotMetaLine(ExampleUnit[1]);
  }

  lemma ExampleNameAndSub()
    ensures PickNameAndSub(ExampleUnit) == ("HAN SOLO", "")
  {
    var lines := ExampleUnit;
    assert lines[6] == "HAN SOLO";
    CandidateLine("HAN SOLO");
    assert LastCandidate(lines) == 6;
    assert lines[..6][5] == "Some effect text";
    CandidateLine("Some effect text");
    assert PreviousCandidate(lines) == 5;
    TextNotUpper();
    NameAndSub(lines);
  }

  lemma SplitOnLeading(c: char, rest: string)
    requires c !in rest
    ensures SplitOn([c] + rest, c) == ["", rest]
  {
    assert ([c] + rest)[1..] == rest;
    assert FirstIndex(rest, c) == |rest|;
  }

  lemma StripSpaced(w: string)
    requires Stripped(w) && w != []
    ensures Strip([' '] + w) == w
  {
    assert ([' '] + w)[1..] == w;
    assert StripLeft([' '] + w) == w;
    assert StripRight(w) == w;
  }

  lemma NonBlankBlankThen(rest: string)
    requires Strip(rest) != []
    ensures NonBlank(["", rest]) == [Strip(rest)]
  {
    assert ["", rest][1..] == [rest];
    assert [rest][1..] == [];
  }

  /** A bullet followed by one clean piece splits into that piece. */
  lemma SplitTraitsOfBulleted(w: string)
    requires Bullet !in w && Stripped(w) && w != []
    ensures SplitTraits([Bullet] + " " + w) == [w]
  {
    var rest := [' '] + w;
    assert [Bullet] + " " + w == [Bullet] + rest;
    assert Bullet !in rest;
    SplitOnLeading(Bullet, rest);
    StripSpaced(w);
    NonBlankBlankThen(rest);
    SplitTraitsPieces([Bullet] + rest);
  }

  lemma SoldierClean()
    ensures "SOLDIER" != [] && Stripped("SOLDIER") && Bullet !in "SOLDIER"
  {
  }

  lemma SoldierNoKind()
    ensures Upper("SOLDIER") !in {"UNIT", "GROUND", "SPACE"}
  {
    assert |Upper("SOLDIER")| == 7;
  }

  lemma SoldierLine()
    ensures ExampleUnit[1] == [Bullet] + " " + "SOLDIER"
  {
  }

  lemma ExampleSoldier()
    ensures SplitTraits(ExampleUnit[1]) == ["SOLDIER"]
  {
    SoldierClean();
    SplitTraitsOfBulleted("SOLDIER");
    SoldierLine();
  }

  lemma ExampleHanTrait()
    ensures "HAN SOLO" in UnitTraits(ExampleUnit)
  {
    ExampleClean();
    ExampleNameAndSub();
    HanUpper();
    HanNoKind();
    UpperNameIsTrait(ExampleUnit, "HAN SOLO");
  }

  lemma ExampleSoldierTrait()
    ensures "SOLDIER" in UnitTraits(ExampleUnit)
  {
    var lines := ExampleUnit;
    ExampleSoldier();
    ExampleBulletLine();
    assert TraitLine(lines[1]);
    RawTraitsHas(lines, 1, "SOLDIER");
    SoldierNoKind();
    UnitTraitsKeep(lines, "SOLDIER");
  }

  lemma ExampleBulletKept()
    ensures ExampleUnit[1] in UnitEffect(ExampleUnit)
  {
    var lines := ExampleUnit;
    ExampleBulletLine();
    ExampleNameAndSub();
    assert |lines[1]| == 9;
    UnitKeepsBulletLine(lines, lines[1]);
  }

  /**
   * The sample unit card, as the code reads it: the name is "HAN
   * SOLO", and since that name is upper-case it is also a trait; the
   * bulleted line "• SOLDIER" gives the trait "SOLDIER" but, not being one
   * itself, stays in the effect text.
   */
  lemma ExampleUnitRead()
    ensures PickNameAndSub(ExampleUnit) == ("HAN SOLO", "")
    ensures "SOLDIER" in UnitTraits(ExampleUnit) && "HAN SOLO" in UnitTraits(ExampleUnit)
    ensures [Bullet] + " SOLDIER" in UnitEffect(ExampleUnit)
  {
    ExampleNameAndSub();
    ExampleSoldierTrait();
    ExampleHanTrait();
    ExampleBulletKept();
  }
}
