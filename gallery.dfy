/**
 * The project gallery overlay (src/components/ProjectGallery/ProjectGallery.tsx): a pure
 * projection of its props onto grid entries. The component receives `onClose` but never calls it.
 */
module ProjectGallery {
  import opened Wrappers
  import opened Catalog
  import opened Counting

  /** The callbacks a grid entry can invoke. */
  datatype GalleryAction = ProjectClick(index: nat) | Close

  /** One rendered grid entry: its picture and caption, its click action and the current marker. */
  datatype GridEntry = GridEntry(
    image: string,
    title: string,
    category: string,
    subcategory: string,
    onClick: GalleryAction,
    isCurrent: bool)

  /** The overlay for the given props: None when closed, otherwise one entry per project. */
  function Render(projects: seq<ProjectRecord>, isOpen: bool, currentIndex: int): (r: Option<seq<GridEntry>>)
    ensures r.Some? <==> isOpen
    ensures r.Some? ==> |r.value| == |projects|
    ensures r.Some? ==> forall k :: 0 <= k < |r.value| ==>
      && r.value[k].image == projects[k].image && r.value[k].title == projects[k].title
      && r.value[k].category == projects[k].category && r.value[k].subcategory == projects[k].subcategory
    ensures r.Some? ==> forall k :: 0 <= k < |r.value| ==> r.value[k].onClick == ProjectClick(k)
    ensures r.Some? ==> forall k :: 0 <= k < |r.value| ==> (r.value[k].isCurrent <==> k == currentIndex)
  {
    if !isOpen then None
    else Some(seq(|projects|, k requires 0 <= k < |projects| =>
      GridEntry(projects[k].image, projects[k].title, projects[k].category, projects[k].subcategory,
                ProjectClick(k), k == currentIndex)))
  }

  /** The number of entries carrying the current marker. */
  function MarkedCount(entries: seq<GridEntry>): (c: nat)
    ensures c <= |entries|
  {
    CountTrue(seq(|entries|, k requires 0 <= k < |entries| => entries[k].isCurrent))
  }

  /** An open gallery marks exactly one entry when the index is in range, and none otherwise. */
  lemma {:induction false} OneMarker(projects: seq<ProjectRecord>, currentIndex: int)
    ensures MarkedCount(Render(projects, true, currentIndex).value) ==
      if 0 <= currentIndex < |projects| then 1 else 0
  {
    var entries := Render(projects, true, currentIndex).value;
    CountIsOneAt(seq(|entries|, k requires 0 <= k < |entries| => entries[k].isCurrent), currentIndex);
  }

  /** No entry of the gallery invokes `onClose`. */
  lemma NeverCloses(projects: seq<ProjectRecord>, isOpen: bool, currentIndex: int)
    ensures var r := Render(projects, isOpen, currentIndex);
      r.Some? ==> forall k :: 0 <= k < |r.value| ==> r.value[k].onClick != Close
  {
  }
}
