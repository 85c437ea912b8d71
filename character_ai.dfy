/**
 * `CharacterAI`: a registry of character profiles that persists across calls and grows with
 * every screenplay: which scenes each character appears in and how many lines they speak.
 */
module CharacterAI {
  import opened Wrappers
  import opened Screenplay

  /** A character profile: the name, the numbers of the scenes listing it, and its dialogue count. */
  datatype Profile = Profile(name: string, scenes: seq<int>, dialogCount: int)

  /** The number of the first `k` dialogues spoken by `n`. */
  function SpokenIn(dialogs: seq<Dialog>, n: string, k: nat): (c: nat)
    requires k <= |dialogs|
    ensures c <= k
  {
    if k == 0 then 0 else SpokenIn(dialogs, n, k - 1) + (if dialogs[k - 1].character == n then 1 else 0)
  }

  /** The number of dialogues spoken by `n`. */
  function SpokenBy(dialogs: seq<Dialog>, n: string): nat {
    SpokenIn(dialogs, n, |dialogs|)
  }

  /** How often `n` occurs among the first `j` names. */
  function Occurrences(names: seq<string>, n: string, j: nat): (c: nat)
    requires j <= |names|
    ensures c <= j
    ensures c == 0 <==> forall m :: 0 <= m < j ==> names[m] != n
  {
    if j == 0 then 0 else Occurrences(names, n, j - 1) + (if names[j - 1] == n then 1 else 0)
  }

  function Repeat(x: int, m: nat): (r: seq<int>)
    ensures |r| == m && forall k :: 0 <= k < m ==> r[k] == x
  {
    if m == 0 then [] else Repeat(x, m - 1) + [x]
  }

  /** Python's `set(names)`. */
  function NameSet(names: seq<string>): set<string> {
    set i | 0 <= i < |names| :: names[i]
  }

  /** The names listed by the first `k` scenes. */
  function AllNames(scenes: seq<Scene>, k: nat): set<string>
    requires k <= |scenes|
  {
    if k == 0 then {} else AllNames(scenes, k - 1) + NameSet(scenes[k - 1].characters)
  }

  /** The registry with an empty profile added for every name of `names` it does not hold yet. */
  function Registered(reg: map<string, Profile>, names: set<string>): map<string, Profile> {
    map n | n in reg.Keys + names :: if n in reg then reg[n] else Profile(n, [], 0)
  }

  /** One scene's name `c` recorded: its scene number appended and its dialogues counted. */
  function Record(reg: map<string, Profile>, scene: Scene, c: string): map<string, Profile> {
    if c in reg then
      reg[c := reg[c].(scenes := reg[c].scenes + [scene.sceneNumber],
                       dialogCount := reg[c].dialogCount + SpokenBy(scene.dialogs, c))]
    else reg
  }

  /** The registry after recording the first `j` names of one scene. */
  function TrackScene(reg: map<string, Profile>, scene: Scene, j: nat): map<string, Profile>
    requires j <= |scene.characters|
  {
    if j == 0 then reg else Record(TrackScene(reg, scene, j - 1), scene, scene.characters[j - 1])
  }

  /** The registry after recording the names of the first `k` scenes. */
  function Tracked(reg: map<string, Profile>, scenes: seq<Scene>, k: nat): map<string, Profile>
    requires k <= |scenes|
  {
    if k == 0 then reg else TrackScene(Tracked(reg, scenes, k - 1), scenes[k - 1], |scenes[k - 1].characters|)
  }

  /** The scene numbers a name collects from the first `k` scenes: one per listing, in scene order. */
  function Appearances(scenes: seq<Scene>, n: string, k: nat): seq<int>
    requires k <= |scenes|
  {
    if k == 0 then []
    else Appearances(scenes, n, k - 1) + Repeat(scenes[k - 1].sceneNumber, Occurrences(scenes[k - 1].characters, n, |scenes[k - 1].characters|))
  }

  /** The dialogues a name collects from the first `k` scenes: its lines, once per listing of it. */
  function DialogTotal(scenes: seq<Scene>, n: string, k: nat): int
    requires k <= |scenes|
  {
    if k == 0 then 0
    else DialogTotal(scenes, n, k - 1)
         + Occurrences(scenes[k - 1].characters, n, |scenes[k - 1].characters|) * SpokenBy(scenes[k - 1].dialogs, n)
  }

  /** Recording one scene's names keeps the registry's keys. */
  lemma {:induction false} TrackSceneKeys(reg: map<string, Profile>, scene: Scene, j: nat)
    requires j <= |scene.characters|
    ensures TrackScene(reg, scene, j).Keys == reg.Keys
  {
    if j > 0 {
      TrackSceneKeys(reg, scene, j - 1);
    }
  }

  /** Recording one scene extends a held profile by the scene's number and dialogues once per listing. */
  lemma {:induction false} TrackSceneProfile(reg: map<string, Profile>, scene: Scene, j: nat, n: string)
    requires j <= |scene.characters|
    requires n in reg
    ensures n in TrackScene(reg, scene, j)
    ensures var occ := Occurrences(scene.characters, n, j);
      TrackScene(reg, scene, j)[n]
        == reg[n].(scenes := reg[n].scenes + Repeat(scene.sceneNumber, occ),
                   dialogCount := reg[n].dialogCount + occ * SpokenBy(scene.dialogs, n))
  {
    if j > 0 {
      TrackSceneProfile(reg, scene, j - 1, n);
      var prev := TrackScene(reg, scene, j - 1);
      var occ := Occurrences(scene.characters, n, j - 1);
      if scene.characters[j - 1] == n {
        var spoken := SpokenBy(scene.dialogs, n);
        assert Occurrences(scene.characters, n, j) == occ + 1;
        assert reg[n].scenes + Repeat(scene.sceneNumber, occ) + [scene.sceneNumber]
            == reg[n].scenes + Repeat(scene.sceneNumber, occ + 1);
        MulSucc(occ, spoken);
        assert TrackScene(reg, scene, j)[n]
          == prev[n].(scenes := prev[n].scenes + [scene.sceneNumber], dialogCount := prev[n].dialogCount + spoken);
      } else {
        assert Occurrences(scene.characters, n, j) == occ;
        assert TrackScene(reg, scene, j)[n] == prev[n];
      }
    }
  }

  lemma MulSucc(a: nat, b: nat)
    ensures (a + 1) * b == a * b + b
  {
  }

  /**
   * Recording the scenes keeps the keys and the names, and each held profile gains exactly the
   * scene numbers of the scenes listing it, in scene order, and their dialogues of that name.
   */
  lemma {:induction false} TrackedProfile(reg: map<string, Profile>, scenes: seq<Scene>, k: nat, n: string)
    requires k <= |scenes|
    ensures Tracked(reg, scenes, k).Keys == reg.Keys
    ensures n in reg ==>
      Tracked(reg, scenes, k)[n]
        == reg[n].(scenes := reg[n].scenes + Appearances(scenes, n, k),
                   dialogCount := reg[n].dialogCount + DialogTotal(scenes, n, k))
  {
    if k > 0 {
      TrackedProfile(reg, scenes, k - 1, n);
      TrackSceneKeys(Tracked(reg, scenes, k - 1), scenes[k - 1], |scenes[k - 1].characters|);
      if n in reg {
        TrackSceneProfile(Tracked(reg, scenes, k - 1), scenes[k - 1], |scenes[k - 1].characters|, n);
      }
      assert Appearances(scenes, n, k - 1) + Repeat(scenes[k - 1].sceneNumber, Occurrences(scenes[k - 1].characters, n, |scenes[k - 1].characters|))
          == Appearances(scenes, n, k);
    }
  }

  /** A name appears in the collected names exactly when some scene lists it. */
  lemma {:induction false} AllNamesListed(scenes: seq<Scene>, k: nat, n: string)
    requires k <= |scenes|
    ensures n in AllNames(scenes, k) <==> exists i :: 0 <= i < k && n in scenes[i].characters
  {
    if k > 0 {
      AllNamesListed(scenes, k - 1, n);
      if n in scenes[k - 1].characters {
        var j :| 0 <= j < |scenes[k - 1].characters| && scenes[k - 1].characters[j] == n;
        assert n in NameSet(scenes[k - 1].characters);
      }
    }
  }

  /** In a list without repeats a listed name occurs once. */
  lemma {:induction false} OccurrencesOnce(names: seq<string>, n: string, j: nat)
    requires j <= |names| && forall a, b :: 0 <= a < b < j ==> names[a] != names[b]
    ensures Occurrences(names, n, j) == if n in names[..j] then 1 else 0
  {
    if j > 0 {
      OccurrencesOnce(names, n, j - 1);
      assert names[..j] == names[..j - 1] + [names[j - 1]];
    }
  }

  /** `CharacterAI`, whose registry persists from one call to the next. */
  class Registry {
    var characters: map<string, Profile>

    /** Every profile is filed under its own name. */
    predicate Valid()
      reads this
    {
      forall n :: n in characters ==> characters[n].name == n
    }

    constructor ()
      ensures characters == map[]
      ensures Valid()
    {
      characters := map[];
    }

    /**
     * `extract_characters`: collects the names of all scenes, adds an empty profile for every
     * new one, then records each scene's number and dialogues on every name it lists; the
     * registry itself is returned.
     */
    method ExtractCharacters(scenes: seq<Scene>) returns (result: map<string, Profile>)
      modifies this
      ensures characters == Tracked(Registered(old(characters), AllNames(scenes, |scenes|)), scenes, |scenes|)
      ensures result == characters
      ensures old(Valid()) ==> Valid()
    {
      ghost var before := characters;
      var allCharacters := CollectNames(scenes);
      RegisterNames(allCharacters);
      RecordScenes(scenes);
      result := characters;
      if forall m :: m in before ==> before[m].name == m {
        forall n | n in characters
          ensures characters[n].name == n
        {
          ExtractFacts(before, scenes, n);
        }
      }
    }

    /** The first loop of `extract_characters`: the set of all names the scenes list. */
    static method CollectNames(scenes: seq<Scene>) returns (allCharacters: set<string>)
      ensures allCharacters == AllNames(scenes, |scenes|)
    {
      allCharacters := {};
      var i := 0;
      while i < |scenes|
        invariant i <= |scenes|
        invariant allCharacters == AllNames(scenes, i)
      {
        allCharacters := allCharacters + NameSet(scenes[i].characters);
        i := i + 1;
      }
    }

    /** The second loop: an empty profile for every name not registered yet, in any order. */
    method RegisterNames(allCharacters: set<string>)
      modifies this
      ensures characters == Registered(old(characters), allCharacters)
    {
      var rest := allCharacters;
      while rest != {}
        invariant rest <= allCharacters
        invariant characters == Registered(old(characters), allCharacters - rest)
        decreases |rest|
      {
        var name :| name in rest;
        if name !in characters {
          characters := characters[name := Profile(name, [], 0)];
        }
        rest := rest - {name};
      }
      assert allCharacters - rest == allCharacters;
    }

    /** The third loop: every scene's number and dialogues recorded on each registered name it lists. */
    method RecordScenes(scenes: seq<Scene>)
      modifies this
      ensures characters == Tracked(old(characters), scenes, |scenes|)
    {
      var i := 0;
      while i < |scenes|
        invariant i <= |scenes|
        invariant characters == Tracked(old(characters), scenes, i)
      {
        var scene := scenes[i];
        ghost var start := characters;
        var j := 0;
        while j < |scene.characters|
          invariant j <= |scene.characters|
          invariant characters == TrackScene(start, scene, j)
        {
          var c := scene.characters[j];
          if c in characters {
            characters := characters[c := characters[c].(scenes := characters[c].scenes + [scene.sceneNumber],
                                                          dialogCount := characters[c].dialogCount + SpokenBy(scene.dialogs, c))];
          }
          j := j + 1;
        }
        i := i + 1;
      }
    }

    /** `get_character_info`: the profile of a registered name, and nothing (`{}`) for any other. */
    function GetCharacterInfo(name: string): (info: Option<Profile>)
      reads this
      ensures info.Some? <==> name in characters
      ensures info.Some? ==> info.value == characters[name]
    {
      if name in characters then Some(characters[name]) else None
    }
  }

  /**
   * After `extract_characters` every name listed by a scene has a profile filed under it, no
   * earlier profile is lost or reset, and every profile held before or added now carries
   * exactly the scenes listing it and their dialogues on top of what it had.
   */
  lemma ExtractFacts(before: map<string, Profile>, scenes: seq<Scene>, n: string)
    requires forall m :: m in before ==> before[m].name == m
    ensures var after := Tracked(Registered(before, AllNames(scenes, |scenes|)), scenes, |scenes|);
      && after.Keys == before.Keys + AllNames(scenes, |scenes|)
      && (n in after ==> after[n].name == n)
      && ((exists i :: 0 <= i < |scenes| && n in scenes[i].characters) ==> n in after)
      && (n in before ==> after[n] == before[n].(scenes := before[n].scenes + Appearances(scenes, n, |scenes|),
                                                 dialogCount := before[n].dialogCount + DialogTotal(scenes, n, |scenes|)))
      && (n in after && n !in before ==> after[n] == Profile(n, Appearances(scenes, n, |scenes|), DialogTotal(scenes, n, |scenes|)))
  {
    ExtractKeys(before, scenes, n);
    ExtractProfile(before, scenes, n);
  }

  /** The keys after `extract_characters`: the old ones and every listed name, each filed under itself. */
  lemma ExtractKeys(before: map<string, Profile>, scenes: seq<Scene>, n: string)
    requires forall m :: m in before ==> before[m].name == m
    ensures var after := Tracked(Registered(before, AllNames(scenes, |scenes|)), scenes, |scenes|);
      && after.Keys == before.Keys + AllNames(scenes, |scenes|)
      && (n in after ==> after[n].name == n)
      && ((exists i :: 0 <= i < |scenes| && n in scenes[i].characters) ==> n in after)
  {
    var names := AllNames(scenes, |scenes|);
    var reg := Registered(before, names);
    assert reg.Keys == before.Keys + names;
    TrackedProfile(reg, scenes, |scenes|, n);
    AllNamesListed(scenes, |scenes|, n);
    if n in reg {
      RegisteredProfile(before, names, n);
    }
  }

  /** The profiles after `extract_characters`: an old or new profile gains the scenes listing its name. */
  lemma ExtractProfile(before: map<string, Profile>, scenes: seq<Scene>, n: string)
    ensures var after := Tracked(Registered(before, AllNames(scenes, |scenes|)), scenes, |scenes|);
      && (n in before ==> n in after && after[n] == before[n].(scenes := before[n].scenes + Appearances(scenes, n, |scenes|),
                                                               dialogCount := before[n].dialogCount + DialogTotal(scenes, n, |scenes|)))
      && (n in after && n !in before ==> after[n] == Profile(n, Appearances(scenes, n, |scenes|), DialogTotal(scenes, n, |scenes|)))
  {
    var names := AllNames(scenes, |scenes|);
    var reg := Registered(before, names);
    assert reg.Keys == before.Keys + names;
    TrackedProfile(reg, scenes, |scenes|, n);
    if n in reg {
      RegisteredProfile(before, names, n);
    }
  }

  /** A registered name keeps its old profile, or gets an empty one filed under its own name. */
  lemma RegisteredProfile(before: map<string, Profile>, names: set<string>, n: string)
    requires n in before.Keys + names
    ensures var reg := Registered(before, names);
      n in reg && reg[n] == (if n in before then before[n] else Profile(n, [], 0))
  {
  }
}
