/**
 * The application's cache-key taxonomy (lib/queryKeys.ts). A key is a sequence of
 * tokens; every constructor extends a parent key by one or two tokens, so the keys of
 * one resource form a prefix hierarchy under that resource's `all` key.
 */
module QueryKeys {
  import opened Wrappers
  import opened JsValues

  /** One element of a key: a literal string, or the filter object passed to `posts.list`. */
  datatype Token = Word(text: string) | Filters(fields: map<string, Json>)

  type Key = seq<Token>

  // ---- users ----

  function UsersAll(): (k: Key)
    ensures |k| == 1
  {
    [Word("users")]
  }

  function UsersProfile(): (k: Key)
    ensures |k| == 2 && UsersAll() < k
  {
    UsersAll() + [Word("profile")]
  }

  function UsersById(id: string): (k: Key)
    ensures |k| == 2 && UsersAll() < k && k[1] == Word(id)
  {
    UsersAll() + [Word(id)]
  }

  // ---- posts ----

  function PostsAll(): (k: Key)
    ensures |k| == 1
  {
    [Word("posts")]
  }

  function PostsLists(): (k: Key)
    ensures |k| == 2 && PostsAll() < k
  {
    PostsAll() + [Word("list")]
  }

  function PostsList(filters: map<string, Json>): (k: Key)
    ensures |k| == 3 && PostsLists() < k && PostsAll() < k
    ensures k[2] == Filters(filters)
  {
    PostsLists() + [Filters(filters)]
  }

  function PostsDetails(): (k: Key)
    ensures |k| == 2 && PostsAll() < k
  {
    PostsAll() + [Word("detail")]
  }

  function PostsDetail(id: string): (k: Key)
    ensures |k| == 3 && PostsDetails() < k && PostsAll() < k
    ensures k[2] == Word(id)
  {
    PostsDetails() + [Word(id)]
  }

  // ---- comments ----

  function CommentsAll(): (k: Key)
    ensures |k| == 1
  {
    [Word("comments")]
  }

  function CommentsByPost(postId: string): (k: Key)
    ensures |k| == 3 && CommentsAll() < k
    ensures k[2] == Word(postId)
  {
    CommentsAll() + [Word("byPost"), Word(postId)]
  }

  // ---- settings ----

  function SettingsAll(): (k: Key)
    ensures |k| == 1
  {
    [Word("settings")]
  }

  function SettingsTheme(): (k: Key)
    ensures |k| == 2 && SettingsAll() < k
  {
    SettingsAll() + [Word("theme")]
  }

  function SettingsNotifications(): (k: Key)
    ensures |k| == 2 && SettingsAll() < k
  {
    SettingsAll() + [Word("notifications")]
  }

  // ---- the taxonomy as a whole ----

  /** Every call of a key constructor the taxonomy offers, with its arguments. */
  datatype KeyName =
    | UsersAllKey
    | UsersProfileKey
    | UsersByIdKey(id: string)
    | PostsAllKey
    | PostsListsKey
    | PostsListKey(filters: map<string, Json>)
    | PostsDetailsKey
    | PostsDetailKey(postId: string)
    | CommentsAllKey
    | CommentsByPostKey(commentsPostId: string)
    | SettingsAllKey
    | SettingsThemeKey
    | SettingsNotificationsKey

  /** The key each constructor call builds. */
  function KeyOf(n: KeyName): Key {
    match n
    case UsersAllKey => UsersAll()
    case UsersProfileKey => UsersProfile()
    case UsersByIdKey(id) => UsersById(id)
    case PostsAllKey => PostsAll()
    case PostsListsKey => PostsLists()
    case PostsListKey(f) => PostsList(f)
    case PostsDetailsKey => PostsDetails()
    case PostsDetailKey(id) => PostsDetail(id)
    case CommentsAllKey => CommentsAll()
    case CommentsByPostKey(id) => CommentsByPost(id)
    case SettingsAllKey => SettingsAll()
    case SettingsThemeKey => SettingsTheme()
    case SettingsNotificationsKey => SettingsNotifications()
  }

  /** The resource namespace a constructor belongs to. */
  function Namespace(n: KeyName): string {
    match n
    case UsersAllKey | UsersProfileKey | UsersByIdKey(_) => "users"
    case PostsAllKey | PostsListsKey | PostsListKey(_) | PostsDetailsKey | PostsDetailKey(_) => "posts"
    case CommentsAllKey | CommentsByPostKey(_) => "comments"
    case SettingsAllKey | SettingsThemeKey | SettingsNotificationsKey => "settings"
  }

  /** The number of tokens a constructor's key has, by the taxonomy's design. */
  function Depth(n: KeyName): nat {
    match n
    case UsersAllKey | PostsAllKey | CommentsAllKey | SettingsAllKey => 1
    case UsersProfileKey | UsersByIdKey(_) | PostsListsKey | PostsDetailsKey
       | SettingsThemeKey | SettingsNotificationsKey => 2
    case PostsListKey(_) | PostsDetailKey(_) | CommentsByPostKey(_) => 3
  }

  /** Key lengths are fixed per constructor, and every key starts with its namespace. */
  lemma KeyShape(n: KeyName)
    ensures |KeyOf(n)| == Depth(n)
    ensures KeyOf(n)[0] == Word(Namespace(n))
  {
  }

  /**
   * Recovers the constructor call that built a key, or None for a sequence of tokens that
   * no constructor builds. `['users', 'profile']` is read as `users.profile()`.
   */
  function Classify(k: Key): Option<KeyName> {
    if |k| == 0 || !k[0].Word? then None
    else
      var ns := k[0].text;
      if |k| == 1 then
        if ns == "users" then Some(UsersAllKey)
        else if ns == "posts" then Some(PostsAllKey)
        else if ns == "comments" then Some(CommentsAllKey)
        else if ns == "settings" then Some(SettingsAllKey)
        else None
      else if |k| == 2 then
        if !k[1].Word? then None
        else
          var t := k[1].text;
          if ns == "users" then
            if t == "profile" then Some(UsersProfileKey) else Some(UsersByIdKey(t))
          else if ns == "posts" then
            if t == "list" then Some(PostsListsKey)
            else if t == "detail" then Some(PostsDetailsKey)
            else None
          else if ns == "settings" then
            if t == "theme" then Some(SettingsThemeKey)
            else if t == "notifications" then Some(SettingsNotificationsKey)
            else None
          else None
      else if |k| == 3 then
        if ns == "posts" && k[1] == Word("list") && k[2].Filters? then
          Some(PostsListKey(k[2].fields))
        else if ns == "posts" && k[1] == Word("detail") && k[2].Word? then
          Some(PostsDetailKey(k[2].text))
        else if ns == "comments" && k[1] == Word("byPost") && k[2].Word? then
          Some(CommentsByPostKey(k[2].text))
        else None
      else None
  }

  /** Whatever Classify recognises is rebuilt exactly by the constructor it names. */
  lemma ClassifySound(k: Key)
    ensures Classify(k).Some? ==> KeyOf(Classify(k).value) == k
  {
  }

  /**
   * Every constructor call is recovered from its key, except `users.byId('profile')`,
   * whose key is that of `users.profile()`.
   */
  lemma ClassifyKeyOf(n: KeyName)
    ensures n != UsersByIdKey("profile") ==> Classify(KeyOf(n)) == Some(n)
    ensures n == UsersByIdKey("profile") ==> Classify(KeyOf(n)) == Some(UsersProfileKey)
  {
  }

  /** The taxonomy does not separate `users.byId('profile')` from `users.profile()`. */
  lemma ProfileByIdCollision()
    ensures UsersById("profile") == UsersProfile()
  {
  }

  /**
   * Distinct constructor calls build distinct keys, with the single exception of
   * `users.byId('profile')` and `users.profile()`.
   */
  lemma KeyOfInjective(n: KeyName, m: KeyName)
    requires KeyOf(n) == KeyOf(m)
    ensures n == m || {n, m} == {UsersProfileKey, UsersByIdKey("profile")}
  {
    ClassifyKeyOf(n);
    ClassifyKeyOf(m);
  }

  /** `posts.detail` is injective in its id and `posts.list` in its filters. */
  lemma PostsDetailAndListInjective(a: string, b: string, f: map<string, Json>, g: map<string, Json>)
    ensures PostsDetail(a) == PostsDetail(b) ==> a == b
    ensures PostsList(f) == PostsList(g) ==> f == g
  {
  }

  /** A list key and a detail key are never equal and neither extends the other. */
  lemma ListAndDetailUnrelated(f: map<string, Json>, id: string)
    ensures !(PostsList(f) <= PostsDetail(id)) && !(PostsDetail(id) <= PostsList(f))
    ensures !(PostsLists() <= PostsDetail(id)) && !(PostsDetails() <= PostsList(f))
  {
    assert PostsList(f)[1] != PostsDetail(id)[1];
  }

  /**
   * The prefix hierarchy, stated on constructor calls without looking at tokens: `p`
   * covers `n` when `n`'s key extends `p`'s key by the taxonomy's design.
   */
  predicate Covers(p: KeyName, n: KeyName) {
    match p
    case UsersAllKey | PostsAllKey | CommentsAllKey | SettingsAllKey =>
      Namespace(n) == Namespace(p)
    case PostsListsKey => n.PostsListsKey? || n.PostsListKey?
    case PostsDetailsKey => n.PostsDetailsKey? || n.PostsDetailKey?
    case UsersProfileKey => n == UsersProfileKey || n == UsersByIdKey("profile")
    case UsersByIdKey(id) =>
      n == p || (id == "profile" && n == UsersProfileKey)
    case _ => n == p
  }

  /** A one-token key is a prefix of exactly the keys that start with its token. */
  lemma RootPrefix(kp: Key, kn: Key)
    requires |kp| == 1 && |kn| >= 1
    ensures kp <= kn <==> kn[0] == kp[0]
  {
    if kn[0] == kp[0] { assert kn[..1] == kp; }
  }

  /** A two-token key is a prefix of a longer key exactly when their first two tokens agree. */
  lemma PairPrefix(kp: Key, kn: Key)
    requires |kp| == 2 && |kn| >= 2
    ensures kp <= kn <==> kn[0] == kp[0] && kn[1] == kp[1]
  {
    if kn[0] == kp[0] && kn[1] == kp[1] { assert kn[..2] == kp; }
  }

  /** The hierarchy below a root key `all`: exactly the keys of its namespace. */
  lemma RootCovers(p: KeyName, n: KeyName)
    requires Depth(p) == 1
    ensures KeyOf(p) <= KeyOf(n) <==> Covers(p, n)
  {
    KeyShape(p);
    KeyShape(n);
    RootPrefix(KeyOf(p), KeyOf(n));
  }

  /** The hierarchy below a two-token key. */
  lemma PairCovers(p: KeyName, n: KeyName)
    requires Depth(p) == 2
    ensures KeyOf(p) <= KeyOf(n) <==> Covers(p, n)
  {
    KeyShape(p);
    KeyShape(n);
    var kp, kn := KeyOf(p), KeyOf(n);
    if Depth(n) == 1 {
      assert !(kp <= kn);
      assert !Covers(p, n);
    } else {
      PairPrefix(kp, kn);
      if Namespace(n) != Namespace(p) {
        assert kn[0] != kp[0];
      }
    }
  }

  /** A three-token key is a prefix only of itself. */
  lemma LeafCovers(p: KeyName, n: KeyName)
    requires Depth(p) == 3
    ensures KeyOf(p) <= KeyOf(n) <==> Covers(p, n)
  {
  }

  /** Prefix matching on keys is exactly the designed hierarchy, in both directions. */
  lemma PrefixIffCovers(p: KeyName, n: KeyName)
    ensures KeyOf(p) <= KeyOf(n) <==> Covers(p, n)
  {
    KeyShape(p);
    if Depth(p) == 1 {
      RootCovers(p, n);
    } else if Depth(p) == 2 {
      PairCovers(p, n);
    } else {
      LeafCovers(p, n);
    }
  }

  /** Keys of different namespaces differ in their first token: neither extends the other. */
  lemma NamespacesDisjoint(n: KeyName, m: KeyName)
    requires Namespace(n) != Namespace(m)
    ensures !(KeyOf(n) <= KeyOf(m)) && !(KeyOf(m) <= KeyOf(n))
  {
    PrefixIffCovers(n, m);
    PrefixIffCovers(m, n);
  }

  /** Every posts key extends `posts.all`; no key of another namespace does. */
  lemma PostsAllCoversExactlyPosts(n: KeyName)
    ensures PostsAll() <= KeyOf(n) <==> Namespace(n) == "posts"
  {
    PrefixIffCovers(PostsAllKey, n);
  }
}
