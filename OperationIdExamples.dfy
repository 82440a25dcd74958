/** The operation-id derivation worked out on sample templates (some of them registered by demo.ts). */
module OperationIdExamples {
  import opened Wrappers
  import opened Strings
  import opened OperationId

  lemma ExampleUsers(pascal: string -> string)
    ensures PathToString(pascal, "/users") == pascal("users")
  {
    var segments := ["users"];
    assert Template(segments) == "/users";
    PiecesOfTemplate(segments);
    assert Reverse(segments) == segments;
    assert FirstSentinel(segments) == None;
    assert Tokens("/users") == ["users"];
  }

  lemma SelectedMe()
    ensures Selected("/users/@me") == ["@me"]
  {
    var segments := ["users", "@me"];
    assert Template(segments) == "/users/@me";
    PiecesOfTemplate(segments);
    assert Reverse(segments) == ["@me", "users"];
    assert FirstSentinel(["@me", "users"]) == Some(0);
  }

  /** A `@me` sentinel at the end of the template leaves only itself. */
  lemma ExampleMe(pascal: string -> string)
    ensures PathToString(pascal, "/users/@me") == pascal("@me")
  {
    SelectedMe();
    assert StripId("@me") == "@me";
    assert Tokens("/users/@me") == ["@me"];
  }

  lemma SelectedUserId()
    ensures Selected("/users/:userId") == [":userId", "users"]
  {
    var segments := ["users", ":userId"];
    assert Template(segments) == "/users/:userId";
    PiecesOfTemplate(segments);
    assert Reverse(segments) == [":userId", "users"];
    assert FirstSentinel([":userId", "users"]) == None;
  }

  lemma StripUserId()
    ensures StripId(":userId") == ":user"
  {
    var s := ":userId";
    assert s[0] == ':' && s[1] == 'u' && s[2] == 's' && s[3] == 'e' && s[4] == 'r' && s[5] == 'I' && s[6] == 'd';
    assert OccursAt(s, "Id", 5);
    forall j | 0 <= j < 5 ensures !OccursAt(s, "Id", j) {
      assert s[j] != 'I';
    }
  }

  /** The parameter keeps its `:` and loses `Id`; the innermost segment comes first. */
  lemma ExampleUserId(pascal: string -> string)
    ensures PathToString(pascal, "/users/:userId") == pascal(":user") + "By" + pascal("users")
  {
    SelectedUserId();
    StripUserId();
    TwoTokens(pascal, "/users/:userId", ":userId", "users");
  }

  lemma SelectedMeExtra()
    ensures Selected("/users/@me/extra") == ["extra", "@me"]
  {
    var segments := ["users", "@me", "extra"];
    assert Template(segments) == "/users/@me/extra";
    PiecesOfTemplate(segments);
    assert Reverse(segments) == ["extra", "@me", "users"];
    assert FirstSentinel(["extra", "@me", "users"]) == Some(1);
  }

  /** Segments inside the sentinel are kept; those outside it are dropped. */
  lemma ExampleMeExtra(pascal: string -> string)
    ensures PathToString(pascal, "/users/@me/extra") == pascal("extra") + "By" + pascal("@me")
  {
    SelectedMeExtra();
    TwoTokens(pascal, "/users/@me/extra", "extra", "@me");
  }

  /** Two selected segments give two cased tokens joined by `By`. */
  lemma TwoTokens(pascal: string -> string, path: string, a: string, b: string)
    requires Selected(path) == [a, b]
    ensures PathToString(pascal, path) == pascal(StripId(a)) + "By" + pascal(StripId(b))
  {
    var t := MapStrings(pascal, Tokens(path));
    assert t == [pascal(StripId(a)), pascal(StripId(b))];
    assert t[1..] == [pascal(StripId(b))];
    assert Join(t, "By") == t[0] + "By" + Join(t[1..], "By");
  }

  /**
   * Paths are not normalised, but empty pieces do not reach the name: a
   * trailing slash or a doubled slash derives the same name as the plain
   * template.
   */
  lemma ExtraSlashes(pascal: string -> string)
    ensures PathToString(pascal, "/users/") == PathToString(pascal, "/users")
    ensures PathToString(pascal, "//users") == PathToString(pascal, "/users")
  {
    PiecesAppend("/users", "");
    assert "/users" + "/" + "" == "/users/";
    PiecesOfSegment("");
    PiecesAppend("", "/users");
    assert "" + "/" + "/users" == "//users";
  }
}
