/** The records the stores hold. Dates are `Date.getTime()` values
    (milliseconds), optional properties are `Option`s, ids are strings. */
module Types {
  import opened Wrappers
  import Strings
  import Seqs

  type Id = string
  type Time = int

  /** The id a store gives its n-th record: the decimal string `${n}`. */
  function IdOf(n: nat): Id {
    Strings.Decimal(n)
  }

  /** Ids given to different counts are different. */
  lemma IdOfInjective(m: nat, n: nat)
    ensures IdOf(m) == IdOf(n) <==> m == n
  {
    Strings.DecimalInjective(m, n);
  }

  /** The number an id of the form `${k}` stands for. */
  function IdNumber(id: Id): Option<int> {
    Strings.ParseInt(id)
  }

  /** The id is `${k}` for some k between 1 and n. */
  predicate NumberedUpTo(id: Id, n: int) {
    var k := IdNumber(id);
    k.Some? && 1 <= k.value <= n && id == IdOf(k.value)
  }

  lemma IdOfNumbered(k: nat, n: int)
    requires 1 <= k <= n
    ensures NumberedUpTo(IdOf(k), n)
  {
    Strings.ParseDecimal(k);
  }

  /** Every record's id is `${k}` for some k between 1 and the number of
      records: the state the `${length + 1}` numbering keeps. */
  ghost predicate Numbered<T>(s: seq<T>, id: T -> Id) {
    forall i :: 0 <= i < |s| ==> NumberedUpTo(id(s[i]), |s|)
  }

  /** Under that numbering the next id, `${length + 1}`, is not taken. */
  lemma FreshId<T>(s: seq<T>, id: T -> Id)
    requires Numbered(s, id)
    ensures forall i :: 0 <= i < |s| ==> id(s[i]) != IdOf(|s| + 1)
  {
    forall i | 0 <= i < |s|
      ensures id(s[i]) != IdOf(|s| + 1)
    {
      IdOfInjective(IdNumber(id(s[i])).value, |s| + 1);
    }
  }

  /** Appending a record with the next id keeps the numbering. */
  lemma NumberedAppend<T>(s: seq<T>, x: T, id: T -> Id)
    requires Numbered(s, id) && id(x) == IdOf(|s| + 1)
    ensures Numbered(s + [x], id)
  {
    Strings.ParseDecimal(|s| + 1);
    var t := s + [x];
    forall i | 0 <= i < |t|
      ensures NumberedUpTo(id(t[i]), |t|)
    {
      if i < |s| {
        assert t[i] == s[i];
      }
    }
  }

  /** Reordering the records keeps the numbering. */
  lemma NumberedPermutation<T>(s: seq<T>, t: seq<T>, id: T -> Id)
    requires Numbered(s, id) && multiset(s) == multiset(t)
    ensures Numbered(t, id)
  {
    assert |s| == |multiset(s)| == |t|;
    forall i | 0 <= i < |t|
      ensures NumberedUpTo(id(t[i]), |t|)
    {
      assert t[i] in multiset(s);
      var j :| 0 <= j < |s| && s[j] == t[i];
    }
  }

  /** An update that keeps ids keeps the numbering. */
  lemma NumberedMapIf<T>(s: seq<T>, p: T -> bool, f: T -> T, id: T -> Id)
    requires Numbered(s, id)
    requires forall x :: id(f(x)) == id(x)
    ensures Numbered(Seqs.MapIf(s, p, f), id)
  {
    var t := Seqs.MapIf(s, p, f);
    forall i | 0 <= i < |t|
      ensures NumberedUpTo(id(t[i]), |t|)
    {
      assert id(t[i]) == id(s[i]);
    }
  }

  datatype Badge = Badge(id: Id, name: string, description: string, icon: string, earnedAt: Time)

  datatype User = User(
    id: Id, name: string, email: string, phone: Option<string>, photoUrl: Option<string>,
    points: int, badges: seq<Badge>, createdAt: Time)

  datatype Comment = Comment(
    id: Id, userId: Id, userName: string, userPhotoUrl: Option<string>, content: string,
    createdAt: Time)

  datatype Post = Post(
    id: Id, userId: Id, userName: string, userPhotoUrl: Option<string>,
    beforeImageUrl: string, afterImageUrl: string, description: string,
    likes: int, comments: seq<Comment>, createdAt: Time)

  datatype HairDiagnosis = HairDiagnosis(
    id: Id, userId: Id, damageLevel: int, porosity: string, elasticity: string, density: string,
    issues: seq<string>, recommendations: seq<string>, createdAt: Time)

  datatype ColorFormula = ColorFormula(
    id: Id, userId: Id, currentColor: string, desiredColor: string, formula: string,
    proportions: string, additionalNotes: string, createdAt: Time)

  datatype ToneConversion = ToneConversion(
    id: Id, userId: Id, currentTone: string, targetTone: string, steps: seq<string>,
    products: seq<string>, createdAt: Time)

  datatype BackgroundToneAnalysis = BackgroundToneAnalysis(
    id: Id, userId: Id, photoUrl: Option<string>, description: string, identifiedTone: string,
    recommendations: seq<string>, createdAt: Time)

  datatype ToneCorrection = ToneCorrection(
    id: Id, userId: Id, unwantedReflections: seq<string>, solutions: seq<string>, createdAt: Time)

  datatype NeutralizationGuide = NeutralizationGuide(
    id: Id, userId: Id, targetTone: string, neutralizationTips: seq<string>,
    recommendedProducts: seq<string>, createdAt: Time)
}
