/**
 * The community board: the sample posts filtered by a category tab.
 */
module Community {
  import opened Seqs

  datatype Post = Post(id: nat, title: string, tags: seq<string>, author: string, views: nat, comments: nat, category: string)

  /** The category tabs. */
  const Tabs: seq<string> := ["전체", "성공사례", "실패사례", "Q&A"]

  /** The sample posts. */
  const Posts: seq<Post> := [
    Post(1, "실손보험 사고 처리 성공 사례 공유", ["실손", "증액"], "고수", 234, 12, "성공사례"),
    Post(2, "자동차 사고 보상액 협상 팁", ["자동차", "협상"], "고수", 156, 8, "Q&A"),
    Post(3, "화재 사고 처리 시 주의사항", ["화재", "주의사항"], "고수", 89, 5, "성공사례")]

  /** The predicate `post => post.category === tab`. */
  function InCategory(tab: string): Post -> bool
  {
    (p: Post) => p.category == tab
  }

  /** `filteredPosts`: every post for "전체", otherwise the posts of that category. */
  function FilterPosts(list: seq<Post>, tab: string): seq<Post>
  {
    if tab == "전체" then list else Filter(list, InCategory(tab))
  }

  /** "전체" shows every post in order. */
  lemma AllTabShowsAll(list: seq<Post>)
    ensures FilterPosts(list, "전체") == list
  {
  }

  /** Any other tab shows exactly the posts of that category, in their order. */
  lemma CategoryTabShowsExactly(list: seq<Post>, tab: string)
    requires tab != "전체"
    ensures forall p :: p in FilterPosts(list, tab) <==> p in list && p.category == tab
  {
    FilterMembers(list, InCategory(tab));
  }

  /** Whatever the tab, the posts shown are a part of the list in its order. */
  lemma FilterKeepsOrder(list: seq<Post>, tab: string)
    ensures IsSubsequence(FilterPosts(list, tab), list)
  {
    FilterIsSubsequence(list, InCategory(tab));
    if tab == "전체" {
      SubsequenceReflexive(list);
    }
  }

  /** No sample post is a 실패사례, so that tab shows the empty state. */
  lemma FailureTabIsEmpty()
    ensures FilterPosts(Posts, "실패사례") == []
  {
    assert "성공사례"[0] != "실패사례"[0] && "Q&A"[0] != "실패사례"[0];
    FilterNone(Posts, InCategory("실패사례"));
  }
}
