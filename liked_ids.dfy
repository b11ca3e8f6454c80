/** The sets of liked ids kept by the post and donation stores, and how they are read back from `localStorage`. */
module LikedIds {
  import opened Storage

  /** The liked ids after loading: a key that is missing or does not parse leaves the set empty. */
  function LoadLikes(key: Stored<set<string>>): (r: set<string>)
    ensures key.Present? ==> r == key.value
    ensures !key.Present? ==> r == {}
  {
    match key
    case Present(ids) => ids
    case _ => {}
  }

  /** `toggleLike(id)`: removes `id` when it is liked and adds it otherwise. */
  function Toggle(likes: set<string>, id: string): (r: set<string>)
    ensures forall x :: x in r <==> (x in likes) != (x == id)
  {
    if id in likes then likes - {id} else likes + {id}
  }

  /** Toggling twice restores the set. */
  lemma ToggleTwice(likes: set<string>, id: string)
    ensures Toggle(Toggle(likes, id), id) == likes
  {
  }
}
