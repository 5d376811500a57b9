/** The community page: the topic filter over the post list, and creating a
    post, which prepends it and resets the form. */
module Community {
  import opened Seqs
  import opened Text

  datatype Post = Post(
    id: int,
    author: string,
    avatar: string,
    title: string,
    content: string,
    likes: nat,
    comments: nat,
    time: string,
    topic: string)

  /** The topic keys of the filter bar, "All" first. */
  const Topics: seq<string> :=
    ["All", "Career", "Health", "Lifestyle", "Education", "Finance", "Relationships"]

  predicate IsPostTopic(t: string) {
    t != "All"
  }

  /** The topics offered when writing a post: every topic except "All". */
  function PostTopics(topics: seq<string>): (r: seq<string>)
    ensures forall t :: t in r <==> t in topics && t != "All"
    ensures IsSubsequence(r, topics)
  {
    Filter(topics, IsPostTopic)
  }

  function WithTopic(posts: seq<Post>, topic: string): seq<Post> {
    Filter(posts, (p: Post) => p.topic == topic)
  }

  /** `filteredPosts`: all posts for "All", else the posts of that topic. */
  function FilterPosts(posts: seq<Post>, selectedTopic: string): (r: seq<Post>)
    ensures selectedTopic == "All" ==> r == posts
    ensures selectedTopic != "All" ==> forall p :: p in r <==> p in posts && p.topic == selectedTopic
    ensures IsSubsequence(r, posts)
  {
    if selectedTopic == "All" then
      SubsequenceReflexive(posts);
      posts
    else WithTopic(posts, selectedTopic)
  }

  /** With a specific topic, every post of that topic is kept, as many times
      as it occurs, and no other post. */
  lemma FilterKeepsExactlyTopic(posts: seq<Post>, selectedTopic: string, p: Post)
    requires selectedTopic != "All"
    ensures multiset(FilterPosts(posts, selectedTopic))[p]
            == if p.topic == selectedTopic then multiset(posts)[p] else 0
  {
    FilterCount(posts, (q: Post) => q.topic == selectedTopic, p);
  }

  /** The record `handleCreatePost` builds. */
  function NewPost(id: int, title: string, content: string, topic: string): (p: Post)
    ensures p.id == id && p.title == title && p.content == content && p.topic == topic
    ensures p.author == "You" && p.avatar == "YO"
    ensures p.likes == 0 && p.comments == 0 && p.time == "Just now"
  {
    Post(id, "You", "YO", title, content, 0, 0, "Just now", topic)
  }

  /** Whether a post shows under the selected filter. */
  predicate Visible(p: Post, selectedTopic: string) {
    selectedTopic == "All" || p.topic == selectedTopic
  }

  /** A freshly prepended post heads the filtered view exactly when it is
      visible under the selected topic; the rest of the view is as before. */
  lemma PrependedPostVisibility(p: Post, posts: seq<Post>, selectedTopic: string)
    ensures FilterPosts([p] + posts, selectedTopic)
            == if Visible(p, selectedTopic) then [p] + FilterPosts(posts, selectedTopic)
               else FilterPosts(posts, selectedTopic)
  {
    if selectedTopic != "All" {
      FilterAppend([p], posts, (q: Post) => q.topic == selectedTopic);
    }
  }

  class CommunityPage {
    var selectedTopic: string
    var posts: seq<Post>
    var newPostTitle: string
    var newPostContent: string
    var newPostTopic: string
    var dialogOpen: bool

    /** The topic of the next post is always one the chooser offers. */
    predicate Valid()
      reads this
    {
      newPostTopic in Topics && newPostTopic != "All"
    }

    /** The posts currently on screen. */
    function Shown(): (r: seq<Post>)
      reads this
      ensures IsSubsequence(r, posts)
    {
      FilterPosts(posts, selectedTopic)
    }

    constructor (initialPosts: seq<Post>)
      ensures Valid()
      ensures selectedTopic == "All" && posts == initialPosts
      ensures newPostTitle == "" && newPostContent == "" && newPostTopic == "Career"
      ensures !dialogOpen
    {
      selectedTopic := "All";
      posts := initialPosts;
      newPostTitle := "";
      newPostContent := "";
      newPostTopic := "Career";
      dialogOpen := false;
    }

    method SelectTopic(topic: string)
      modifies this`selectedTopic
      ensures selectedTopic == topic
    {
      selectedTopic := topic;
    }

    /** The chooser only offers the topics other than "All" (`PostTopics`). */
    method ChooseNewPostTopic(topic: string)
      requires topic in Topics && topic != "All"
      modifies this`newPostTopic
      ensures Valid() && newPostTopic == topic
    {
      newPostTopic := topic;
    }

    method EditTitle(title: string)
      modifies this`newPostTitle
      ensures newPostTitle == title
    {
      newPostTitle := title;
    }

    method EditContent(content: string)
      modifies this`newPostContent
      ensures newPostContent == content
    {
      newPostContent := content;
    }

    method SetDialogOpen(open: bool)
      modifies this`dialogOpen
      ensures dialogOpen == open
    {
      dialogOpen := open;
    }

    /** `handleCreatePost`: with a blank title or content nothing happens;
        otherwise the new post goes first, the fields are cleared and the
        dialog closes. The chosen topic and the filter are kept, so the new
        post's topic is always one the chooser offers. */
    method CreatePost()
      requires Valid()
      modifies this
      ensures Valid()
      ensures IsBlank(old(newPostTitle)) || IsBlank(old(newPostContent)) ==> unchanged(this)
      ensures !IsBlank(old(newPostTitle)) && !IsBlank(old(newPostContent)) ==>
                && posts == [NewPost(|old(posts)| + 1, old(newPostTitle), old(newPostContent), old(newPostTopic))] + old(posts)
                && newPostTitle == "" && newPostContent == "" && !dialogOpen
                && newPostTopic == old(newPostTopic) && selectedTopic == old(selectedTopic)
                && posts[0].topic in PostTopics(Topics)
    {
      var titleOk := HasText(newPostTitle);
      var contentOk := HasText(newPostContent);
      if titleOk && contentOk {
        var post := NewPost(|posts| + 1, newPostTitle, newPostContent, newPostTopic);
        posts := [post] + posts;
        newPostTitle := "";
        newPostContent := "";
        dialogOpen := false;
      }
    }
  }

  /** The chooser's topics are the six real ones, "Career" among them. */
  lemma PostTopicsAreTheSix()
    ensures PostTopics(Topics) == ["Career", "Health", "Lifestyle", "Education", "Finance", "Relationships"]
  {
    var rest := TopicsAfterAll();
    FilterKeepsAll(rest, IsPostTopic);
  }

  /** "All" heads the filter bar and is the only entry that is not a post topic. */
  lemma TopicsAfterAll() returns (rest: seq<string>)
    ensures rest == ["Career", "Health", "Lifestyle", "Education", "Finance", "Relationships"]
    ensures Filter(Topics, IsPostTopic) == Filter(rest, IsPostTopic)
    ensures forall t :: t in rest ==> IsPostTopic(t)
  {
    rest := Topics[1..];
    assert Topics == [Topics[0]] + rest && !IsPostTopic(Topics[0]);
  }
}
