/** The Streamlit app: the MBTI shadow table, the session's account
    registry with login, signup and logout, the shadow-book request, and
    the community board. Each rerun of the script is a method call on the
    session state. */
module ShadowBooksApp {
  import opened Common
  import Mbti

  /** `mbti_shadow_map`. */
  const ShadowMap: map<string, string> := map[
    "INTJ" := "ESFP", "INTP" := "ESFJ", "ENTJ" := "ISFP", "ENTP" := "ISFJ",
    "INFJ" := "ESTP", "INFP" := "ESTJ", "ENFJ" := "ISTP", "ENFP" := "ISTJ",
    "ISTJ" := "ENFP", "ISFJ" := "ENTP", "ESTJ" := "INFP", "ESFJ" := "INTP",
    "ISTP" := "ENFJ", "ISFP" := "ENTJ", "ESTP" := "INFJ", "ESFP" := "INTJ"]

  /** `list(mbti_shadow_map.keys())`, the options of both MBTI select boxes. */
  const ShadowKeys: seq<string> := ["INTJ", "INTP", "ENTJ", "ENTP", "INFJ", "INFP", "ENFJ", "ENFP",
    "ISTJ", "ISFJ", "ESTJ", "ESFJ", "ISTP", "ISFP", "ESTP", "ESFP"]

  lemma ShadowRow0()
    ensures ShadowMap["INTJ"] == Mbti.InvertCode("INTJ")
    ensures ShadowMap["INTP"] == Mbti.InvertCode("INTP")
  {
  }

  lemma ShadowRow1()
    ensures ShadowMap["ENTJ"] == Mbti.InvertCode("ENTJ")
    ensures ShadowMap["ENTP"] == Mbti.InvertCode("ENTP")
  {
  }

  lemma ShadowRow2()
    ensures ShadowMap["INFJ"] == Mbti.InvertCode("INFJ")
    ensures ShadowMap["INFP"] == Mbti.InvertCode("INFP")
  {
  }

  lemma ShadowRow3()
    ensures ShadowMap["ENFJ"] == Mbti.InvertCode("ENFJ")
    ensures ShadowMap["ENFP"] == Mbti.InvertCode("ENFP")
  {
  }

  lemma ShadowRow4()
    ensures ShadowMap["ISTJ"] == Mbti.InvertCode("ISTJ")
    ensures ShadowMap["ISFJ"] == Mbti.InvertCode("ISFJ")
  {
  }

  lemma ShadowRow5()
    ensures ShadowMap["ESTJ"] == Mbti.InvertCode("ESTJ")
    ensures ShadowMap["ESFJ"] == Mbti.InvertCode("ESFJ")
  {
  }

  lemma ShadowRow6()
    ensures ShadowMap["ISTP"] == Mbti.InvertCode("ISTP")
    ensures ShadowMap["ISFP"] == Mbti.InvertCode("ISFP")
  {
  }

  lemma ShadowRow7()
    ensures ShadowMap["ESTP"] == Mbti.InvertCode("ESTP")
    ensures ShadowMap["ESFP"] == Mbti.InvertCode("ESFP")
  {
  }

  /** The entries of the eight intuitive codes, the first half of the table. */
  lemma ShadowIntuitives()
    ensures forall i :: 0 <= i < 8 ==>
      ShadowKeys[i] in ShadowMap && ShadowMap[ShadowKeys[i]] == Mbti.InvertCode(ShadowKeys[i])
  {
    forall i | 0 <= i < 8
      ensures ShadowKeys[i] in ShadowMap && ShadowMap[ShadowKeys[i]] == Mbti.InvertCode(ShadowKeys[i])
    {
      if i == 0 {
        assert ShadowKeys[i] == "INTJ";
        ShadowRow0();
      } else if i == 1 {
        assert ShadowKeys[i] == "INTP";
        ShadowRow0();
      } else if i == 2 {
        assert ShadowKeys[i] == "ENTJ";
        ShadowRow1();
      } else if i == 3 {
        assert ShadowKeys[i] == "ENTP";
        ShadowRow1();
      } else if i == 4 {
        assert ShadowKeys[i] == "INFJ";
        ShadowRow2();
      } else if i == 5 {
        assert ShadowKeys[i] == "INFP";
        ShadowRow2();
      } else if i == 6 {
        assert ShadowKeys[i] == "ENFJ";
        ShadowRow3();
      } else {
        assert ShadowKeys[i] == "ENFP";
        ShadowRow3();
      }
    }
  }

  /** The entries of the eight sensing codes, the second half of the table. */
  lemma ShadowSensors()
    ensures forall i :: 8 <= i < 16 ==>
      ShadowKeys[i] in ShadowMap && ShadowMap[ShadowKeys[i]] == Mbti.InvertCode(ShadowKeys[i])
  {
    forall i | 8 <= i < 16
      ensures ShadowKeys[i] in ShadowMap && ShadowMap[ShadowKeys[i]] == Mbti.InvertCode(ShadowKeys[i])
    {
      if i == 8 {
        assert ShadowKeys[i] == "ISTJ";
        ShadowRow4();
      } else if i == 9 {
        assert ShadowKeys[i] == "ISFJ";
        ShadowRow4();
      } else if i == 10 {
        assert ShadowKeys[i] == "ESTJ";
        ShadowRow5();
      } else if i == 11 {
        assert ShadowKeys[i] == "ESFJ";
        ShadowRow5();
      } else if i == 12 {
        assert ShadowKeys[i] == "ISTP";
        ShadowRow6();
      } else if i == 13 {
        assert ShadowKeys[i] == "ISFP";
        ShadowRow6();
      } else if i == 14 {
        assert ShadowKeys[i] == "ESTP";
        ShadowRow7();
      } else {
        assert ShadowKeys[i] == "ESFP";
        ShadowRow7();
      }
    }
  }

  /** The select boxes list exactly the table's keys. */
  lemma ShadowMapKeys(s: string)
    ensures s in ShadowMap <==> s in ShadowKeys
  {
  }

  /** Every entry of the table is the letterwise inversion of its key, the
      same function as the front end's `invertMBTI`. */
  lemma ShadowIsInversion()
    ensures forall k :: k in ShadowMap ==> ShadowMap[k] == Mbti.InvertCode(k)
  {
    ShadowIntuitives();
    ShadowSensors();
    forall k | k in ShadowMap ensures ShadowMap[k] == Mbti.InvertCode(k) {
      ShadowMapKeys(k);
      var i :| 0 <= i < |ShadowKeys| && ShadowKeys[i] == k;
    }
  }

  /** The table's keys, and so the options of the select boxes, are
      exactly the sixteen four-letter codes. */
  lemma ShadowKeysAreCodes(s: string)
    ensures Mbti.IsCode(s) <==> s in ShadowMap
    ensures Mbti.IsCode(s) <==> s in ShadowKeys
  {
    ShadowMapKeys(s);
    if Mbti.IsCode(s) {
      assert s == [s[0], s[1], s[2], s[3]];
      assert Mbti.Pairs[0] == ('E', 'I');
    }
  }

  /** The shadow of the shadow is the original type, for every key. */
  lemma ShadowInvolution(k: string)
    requires k in ShadowMap
    ensures ShadowMap[k] in ShadowMap && ShadowMap[ShadowMap[k]] == k
  {
    ShadowIsInversion();
    ShadowKeysAreCodes(k);
    var v := Mbti.InvertCode(k);
    Mbti.InvertCodeOfCode(k);
    ShadowKeysAreCodes(v);
    Mbti.InvertCodeInvolution(k);
  }

  // ---------------------------------------------------------------------
  // Session state

  datatype Account = Account(password: string, mbti: string)
  datatype SignedIn = SignedIn(username: string, mbti: string)

  const LoginFailed := "ユーザー名またはパスワードが違います"
  const NameTaken := "このユーザー名は既に使われています"
  const FieldsMissing := "ユーザー名とパスワードを入力してください"

  /** The registry a new session starts with. */
  const InitialUsers: map<string, Account> := map["testuser" := Account("testpass", "INFP")]

  datatype SignupOutcome = Registered | Rejected(error: string)

  /** A Python dict of strings, as the board's rows are. */
  type Row = map<string, string>

  /** `r.get(key, default)`. */
  function Get(r: Row, key: string, default: string): string {
    if key in r then r[key] else default
  }

  /** The two reviews a new session starts with; their keys are not the
      ones the board displays. */
  const SeedReviews: seq<Row> := [
    map["user_mbti" := "INFP", "book" := "『夜と霧』", "symptom" := "将来への不安",
        "efficacy" := "どんな絶望でも精神の自由は奪えないと知り、呼吸が楽になった。", "date" := "2024-03-10"],
    map["user_mbti" := "ENTJ", "book" := "『HARD THINGS』", "symptom" := "孤独な意思決定",
        "efficacy" := "答えのない恐怖に耐えるのがリーダーだと肯定され、迷いが消えた。", "date" := "2024-03-12"]
  ]

  /** How the board shows a row: MBTI, title, symptom and effect, each with
      its default. */
  datatype Shown = Shown(mbti: string, title: string, symptom: string, effect: string)

  function Display(r: Row): (d: Shown)
    ensures "title" !in r ==> d.title == "タイトル未設定"
    ensures "title" in r ==> d.title == r["title"]
  {
    Shown(Get(r, "mbti", ""), Get(r, "title", "タイトル未設定"), Get(r, "symptom", ""), Get(r, "effect", ""))
  }

  /** The posted row: an empty title becomes the placeholder; the effect is
      kept (`effect or ""` on a string). */
  function NewRow(mbti: string, title: string, symptom: string, effect: string): (r: Row)
    ensures r.Keys == {"mbti", "title", "symptom", "effect"}
    ensures Display(r) == Shown(mbti, if title == "" then "タイトル未入力" else title, symptom, effect)
  {
    map["mbti" := mbti, "title" := (if title == "" then "タイトル未入力" else title),
        "symptom" := symptom, "effect" := effect]
  }

  /** The session's seeded reviews show on the board with empty MBTI and
      effect and the "untitled" placeholder, since they carry `user_mbti`,
      `book` and `efficacy` instead. */
  lemma SeededRowsShowPlaceholders()
    ensures forall i :: 0 <= i < |SeedReviews| ==>
      Display(SeedReviews[i]) == Shown("", "タイトル未設定", SeedReviews[i]["symptom"], "")
  {
  }

  /** The user message of the shadow-book request. */
  function ShadowQuestion(myMbti: string): (q: string)
    requires myMbti in ShadowMap
  {
    "私のMBTIは" + myMbti + "です。真逆の" + ShadowMap[myMbti] + "的な視点を得られる本を1冊紹介してください。"
  }

  datatype ShadowResult = ShadowResult(content: string, shadowType: string)

  /** A Python list object, shared by whoever holds a reference to it. */
  class PyList {
    var items: seq<Row>

    constructor(items: seq<Row>)
      ensures this.items == items
    {
      this.items := items;
    }

    /** `list.insert(0, x)`. */
    method InsertFirst(x: Row)
      modifies this
      ensures items == [x] + old(items)
    {
      items := [x] + items;
    }
  }

  class SessionState {
    var users: map<string, Account>
    var user: Option<SignedIn>
    var loginError: string
    var reviews: PyList
    /** `st.session_state.get("reviews", [...])` returns the reviews list
        itself, so this is the same object. */
    var prescriptions: PyList
    var result: Option<ShadowResult>

    /** The test account is never removed or changed, and the board's list
        is the reviews list. */
    ghost predicate Valid()
      reads this
    {
      "testuser" in users && users["testuser"] == InitialUsers["testuser"] &&
      prescriptions == reviews
    }

    /** The first run of the script in a session. */
    constructor()
      ensures Valid()
      ensures users == InitialUsers && user.None? && loginError == "" && result.None?
      ensures reviews.items == SeedReviews && prescriptions == reviews
    {
      users := InitialUsers;
      user := None;
      loginError := "";
      result := None;
      var list := new PyList(SeedReviews);
      reviews := list;
      prescriptions := list;
    }

    /** The login button (shown only to a guest): success exactly when the
        user exists and the password matches. */
    method Login(username: string, password: string)
      requires Valid() && user.None?
      modifies this
      ensures Valid()
      ensures users == old(users) && reviews == old(reviews) && prescriptions == old(prescriptions)
      ensures result == old(result)
      ensures username in users && users[username].password == password ==>
        user == Some(SignedIn(username, users[username].mbti)) && loginError == ""
      ensures !(username in users && users[username].password == password) ==>
        user.None? && loginError == LoginFailed
    {
      if username in users && users[username].password == password {
        user := Some(SignedIn(username, users[username].mbti));
        loginError := "";
      } else {
        loginError := LoginFailed;
      }
    }

    /** The signup button (shown only to a guest): a taken name is refused
        first, then an empty name or password; otherwise exactly one
        account is added, and nobody is logged in. */
    method Signup(username: string, password: string, mbti: string) returns (outcome: SignupOutcome)
      requires Valid() && user.None? && mbti in ShadowKeys
      modifies this
      ensures Valid()
      ensures user == old(user) && loginError == old(loginError) && result == old(result)
      ensures reviews == old(reviews) && prescriptions == old(prescriptions)
      ensures username in old(users) ==> outcome == Rejected(NameTaken) && users == old(users)
      ensures username !in old(users) && (username == "" || password == "") ==>
        outcome == Rejected(FieldsMissing) && users == old(users)
      ensures outcome == Registered <==> username !in old(users) && username != "" && password != ""
      ensures outcome == Registered ==>
        users == old(users)[username := Account(password, mbti)] && |users| == |old(users)| + 1
    {
      if username in users {
        outcome := Rejected(NameTaken);
      } else if username == "" || password == "" {
        outcome := Rejected(FieldsMissing);
      } else {
        users := users[username := Account(password, mbti)];
        outcome := Registered;
      }
    }

    /** The logout button (shown only when logged in). */
    method Logout()
      requires Valid() && user.Some?
      modifies this
      ensures Valid()
      ensures user.None? && loginError == ""
      ensures users == old(users) && result == old(result)
      ensures reviews == old(reviews) && prescriptions == old(prescriptions)
    {
      user := None;
      loginError := "";
    }

    /** The shadow-book button: the completion's text is stored with the
        shadow type; a failed request leaves the previous result. */
    method ShadowBookArrived(myMbti: string, outcome: Outcome<string>)
      requires Valid() && myMbti in ShadowMap
      modifies this
      ensures Valid()
      ensures outcome.Returned? ==> result == Some(ShadowResult(outcome.value, ShadowMap[myMbti]))
      ensures outcome.Threw? ==> result == old(result)
      ensures users == old(users) && user == old(user) && loginError == old(loginError)
      ensures reviews == old(reviews) && prescriptions == old(prescriptions)
    {
      if outcome.Returned? {
        result := Some(ShadowResult(outcome.value, ShadowMap[myMbti]));
      }
    }

    /** The post form: the new row goes first on the board, and, the two
        names being one list, first in the reviews as well. */
    method Post(mbti: string, title: string, symptom: string, effect: string)
      requires Valid()
      modifies prescriptions
      ensures Valid()
      ensures prescriptions.items == [NewRow(mbti, title, symptom, effect)] + old(prescriptions.items)
      ensures reviews.items == prescriptions.items
    {
      prescriptions.InsertFirst(NewRow(mbti, title, symptom, effect));
    }
  }
}
