/** The social-media feed: a grid of at least nine cells and one expanded post. */
module SocialFeed {
  import opened Wrappers
  import opened Strings
  import opened JsonValues
  import opened ImageProxy

  datatype SocialMediaPost = SocialMediaPost(
    id: string,
    avatar: string,
    username: string,
    timestamp: string,
    content: string,
    image: Option<string>,
    platform: Option<string>)

  /** The number of dashed placeholders: `Math.max(0, 9 - posts.length)`. */
  function PlaceholderCount(postCount: nat): (k: nat)
    ensures postCount + k >= 9
    ensures k > 0 ==> postCount + k == 9
    ensures postCount >= 9 ==> k == 0
  {
    if 9 - postCount > 0 then 9 - postCount else 0
  }

  /** A grid cell: a post's tile, with its proxied thumbnail or "No Image", or a placeholder. */
  datatype Cell = PostTile(post: SocialMediaPost, thumbnail: Option<string>) | Placeholder(key: nat)

  /** The tile of one post: a thumbnail only for a truthy image. */
  function Tile(post: SocialMediaPost): (c: Cell)
    ensures c.PostTile? && c.post == post
    ensures c.thumbnail.Some? <==> Truthy(post.image)
    ensures c.thumbnail.Some? ==> c.thumbnail.value == ProxyImageUrl(post.image.value)
  {
    PostTile(post, if Truthy(post.image) then Some(ProxyImageUrl(post.image.value)) else None)
  }

  /** The grid: every post's tile in order, then the placeholders. */
  function Grid(posts: seq<SocialMediaPost>): (cells: seq<Cell>)
    ensures |cells| == if |posts| < 9 then 9 else |posts|
    ensures forall i :: 0 <= i < |posts| ==> cells[i] == Tile(posts[i])
    ensures forall i :: |posts| <= i < |cells| ==> cells[i] == Placeholder(i - |posts|)
  {
    seq(|posts|, i requires 0 <= i < |posts| => Tile(posts[i]))
      + seq(PlaceholderCount(|posts|), k requires 0 <= k => Placeholder(k))
  }

  /** The three themed keys and their defaults. */
  const DefaultTheme: map<string, Json> :=
    map["background" := JStr("#ffffff"), "text" := JStr("#000000"), "radius" := JStr("8px")]

  /** `theme.key || fallback`. */
  function OrDefault(theme: map<string, Json>, key: string, fallback: Json): Json {
    if key in theme && theme[key].Truthy() then theme[key] else fallback
  }

  /**
   * `appliedTheme`: the three defaulted keys, then `...theme` spread over
   * them, so every key of the theme wins, falsy values included. An
   * undefined theme is `{}`.
   */
  function AppliedTheme(theme: Option<map<string, Json>>): (applied: map<string, Json>)
    ensures var t := theme.GetOr(map[]);
      applied.Keys == t.Keys + DefaultTheme.Keys
      && (forall key :: key in t ==> applied[key] == t[key])
      && (forall key :: key in DefaultTheme && key !in t ==> applied[key] == DefaultTheme[key])
  {
    var t := theme.GetOr(map[]);
    var defaulted := map[
      "background" := OrDefault(t, "background", DefaultTheme["background"]),
      "text" := OrDefault(t, "text", DefaultTheme["text"]),
      "radius" := OrDefault(t, "radius", DefaultTheme["radius"])];
    defaulted + t
  }

  /**
   * The `||` fallbacks are overridden by the spread: a theme that sets a
   * key to a falsy value, such as the empty string, keeps that value.
   */
  lemma FalsyThemeValueWins(theme: map<string, Json>, key: string)
    requires key in theme && !theme[key].Truthy()
    ensures AppliedTheme(Some(theme))[key] == theme[key]
    ensures key in DefaultTheme ==> AppliedTheme(Some(theme))[key] != DefaultTheme[key]
  {
  }

  /** The feed's state: the posts it was given and the expanded post. */
  class SocialMediaFeed {
    const posts: seq<SocialMediaPost>
    var selectedPost: Option<SocialMediaPost>

    constructor (posts: seq<SocialMediaPost>)
      ensures this.posts == posts && selectedPost == None
    {
      this.posts := posts;
      selectedPost := None;
    }

    /** The expanded post, when there is one, is a post of the feed with an image. */
    ghost predicate Valid()
      reads this
    {
      selectedPost.Some? ==> selectedPost.value in posts && Truthy(selectedPost.value.image)
    }

    /** A tile's `onClick`: `post.image && setSelectedPost(post)`. */
    method ClickPost(post: SocialMediaPost)
      requires Valid() && post in posts
      modifies this`selectedPost
      ensures Valid()
      ensures selectedPost == if Truthy(post.image) then Some(post) else old(selectedPost)
    {
      if Truthy(post.image) {
        selectedPost := Some(post);
      }
    }

    /** The close button of the expanded post. */
    method Close()
      modifies this`selectedPost
      ensures Valid()
      ensures selectedPost == None
    {
      selectedPost := None;
    }

    /** The full-size image of the expanded post, proxied. */
    function ExpandedImage(): (url: Option<string>)
      reads this
      ensures url.Some? <==> selectedPost.Some? && Truthy(selectedPost.value.image)
      ensures url.Some? ==> url.value == ProxyImageUrl(selectedPost.value.image.value)
    {
      if selectedPost.Some? && Truthy(selectedPost.value.image) then Some(ProxyImageUrl(selectedPost.value.image.value))
      else None
    }
  }

  /**
   * Whatever tiles are clicked and however often the post is closed, an
   * expanded post always shows its full-size image.
   */
  method Interact(posts: seq<SocialMediaPost>, clicks: seq<Option<nat>>) returns (image: Option<string>)
    ensures image.Some? ==> exists p :: p in posts && Truthy(p.image) && image.value == ProxyImageUrl(p.image.value)
  {
    var feed := new SocialMediaFeed(posts);
    var k := 0;
    while k < |clicks|
      invariant 0 <= k <= |clicks|
      invariant feed.posts == posts && feed.Valid()
    {
      match clicks[k] {
        case None => feed.Close();
        case Some(i) =>
          if i < |posts| {
            feed.ClickPost(posts[i]);
          }
      }
      k := k + 1;
    }
    image := feed.ExpandedImage();
    if feed.selectedPost.Some? {
      assert feed.selectedPost.value in posts;
    }
  }
}
