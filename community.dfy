/** The community board of the React front end: posts kept in local
    storage, seeded on first use, new posts put first. */
module Community {
  import opened Common

  datatype Post = Post(mbti: string, title: string, symptom: string, effect: string)

  const SymptomOptions: seq<string> :=
    ["不安・孤独感", "抑うつ気味", "自己肯定感の低下", "仕事の悩み", "人間関係", "睡眠障害", "その他"]

  const UntitledTitle := "タイトル未入力"

  /** The two posts stored when nothing is stored yet. */
  const Seed: seq<Post> := [
    Post("INFP", "夜と霧", "不安・孤独感", "生きる意味について考え直すきっかけになり、孤独感が和らいだ。"),
    Post("ENFJ", "夜明け前", "自己肯定感の低下", "主人公の強さに励まされ、自分を許すことができた。")
  ]

  /** The post made from the form: an empty title becomes the placeholder,
      the other fields are taken as entered. */
  function NewPost(mbti: string, title: string, symptom: string, effect: string): (p: Post)
    ensures p.mbti == mbti && p.symptom == symptom && p.effect == effect
    ensures title != [] ==> p.title == title
    ensures title == [] ==> p.title == UntitledTitle
    ensures p.title != []
  {
    Post(mbti, if title == [] then UntitledTitle else title, symptom, effect)
  }

  /** The list on mount: a stored list is loaded; a missing or empty entry
      seeds; an entry that does not parse leaves the initial empty list. */
  function Loaded(raw: Option<string>, parse: string -> Option<seq<Post>>): (items: seq<Post>)
    ensures !Truthy(raw) ==> items == Seed
    ensures Truthy(raw) && parse(raw.value).Some? ==> items == parse(raw.value).value
    ensures Truthy(raw) && parse(raw.value).None? ==> items == []
  {
    if !Truthy(raw) then Seed
    else match parse(raw.value)
      case Some(list) => list
      case None => []
  }

  class CommunityPrescriptions {
    var tab: string
    var items: seq<Post>
    var mbti: string
    var title: string
    var symptom: string
    var effect: string
    /** What local storage holds under the board's key, as a list. */
    var storage: seq<Post>

    /** The persisting effect runs after every change of `items`, so storage
        always mirrors the list. */
    ghost predicate Valid()
      reads this
    {
      storage == items
    }

    /** The first render and both mount effects. The loading effect reads
        storage; the persisting effect then writes the list as it stands,
        so an entry that does not parse is overwritten by the empty list. */
    constructor(raw: Option<string>, parse: string -> Option<seq<Post>>)
      ensures Valid()
      ensures items == Loaded(raw, parse)
      ensures tab == "view" && mbti == "INFP" && title == "" && effect == ""
      ensures symptom == SymptomOptions[0]
    {
      tab := "view";
      mbti := "INFP";
      title := "";
      symptom := SymptomOptions[0];
      effect := "";
      items := Loaded(raw, parse);
      storage := items;
    }

    method SetTab(t: string)
      requires Valid()
      modifies this
      ensures Valid() && tab == t
      ensures items == old(items) && mbti == old(mbti) && title == old(title)
      ensures symptom == old(symptom) && effect == old(effect)
    {
      tab := t;
    }

    /** The form's inputs. */
    method Fill(mbti: string, title: string, symptom: string, effect: string)
      requires Valid()
      modifies this
      ensures Valid()
      ensures this.mbti == mbti && this.title == title && this.symptom == symptom && this.effect == effect
      ensures items == old(items) && tab == old(tab)
    {
      this.mbti := mbti;
      this.title := title;
      this.symptom := symptom;
      this.effect := effect;
    }

    /** `handleSubmit`: the new post goes first, the earlier posts follow in
        their order; the view tab opens and title and effect are cleared,
        while the MBTI and symptom choices are kept. */
    method HandleSubmit()
      requires Valid()
      modifies this
      ensures Valid()
      ensures |items| == |old(items)| + 1
      ensures items[0] == NewPost(old(mbti), old(title), old(symptom), old(effect))
      ensures items[1..] == old(items)
      ensures tab == "view" && title == "" && effect == ""
      ensures mbti == old(mbti) && symptom == old(symptom)
    {
      items := [NewPost(mbti, title, symptom, effect)] + items;
      storage := items;
      tab := "view";
      title := "";
      effect := "";
    }
  }
}
