/**
 * The visit detail page (src/components/VisitationDetail.js): loading a
 * record by the route's id, the favourite toggle kept in browser storage,
 * and editing.  Storage is the `stored` field; alerts, the tooltip timer,
 * the cross-page event and the wall-clock "last modified" stamp are not
 * modelled.
 */
module VisitationDetail {
  import opened Common
  import opened Visitation

  const NotFound := "심방 기록을 찾을 수 없습니다."

  class DetailPage {
    /** The favourite ids as stored (`favoriteVisitations`). */
    var stored: seq<int>
    var isFavorited: bool
    var visit: Option<Visit>
    var form: EditForm
    var isEditing: bool
    var error: Option<string>
    var loading: bool

    constructor(favorites: seq<int>)
      ensures stored == favorites && !isFavorited && visit.None? && form == EmptyForm
      ensures !isEditing && error.None? && loading
    {
      stored := favorites;
      isFavorited := false;
      visit := None;
      form := EmptyForm;
      isEditing := false;
      error := None;
      loading := true;
    }

    /**
     * `fetchVisitationDetail`: the record whose id is `parseInt(id)` is
     * shown and seeds the form; without one the not-found error is set.
     */
    method Fetch(records: seq<Visit>, idParam: string)
      modifies this
      ensures !loading && stored == old(stored) && isFavorited == old(isFavorited)
      ensures isEditing == old(isEditing)
      ensures match ParseInt(idParam)
        case None => visit == old(visit) && form == old(form) && error == Some(NotFound)
        case Some(n) =>
          match Find(records, (v: Visit) => v.id == n)
          case Some(v) => visit == Some(v) && form == FormOf(v) && error == old(error)
          case None => visit == old(visit) && form == old(form) && error == Some(NotFound)
    {
      loading := true;
      var id := ParseInt(idParam);
      var found: Option<Visit> := None;
      if id.Some? {
        found := Find(records, (v: Visit) => v.id == id.value);
      }
      if found.Some? {
        visit := found;
        form := FormOf(found.value);
      } else {
        error := Some(NotFound);
      }
      loading := false;
    }

    /** `loadFavoriteStatus`: the flag says whether the id is stored. */
    method LoadFavoriteStatus(id: int)
      modifies this
      ensures isFavorited == (id in stored)
      ensures stored == old(stored) && visit == old(visit) && form == old(form) && isEditing == old(isEditing)
      ensures error == old(error) && loading == old(loading)
    {
      isFavorited := id in stored;
    }

    /** `toggleFavorite`: drop every copy of the id or append it, and flip the flag. */
    method ToggleFavorite(id: int)
      modifies this
      ensures (stored, isFavorited) == ToggleStored(old(stored), id, old(isFavorited))
      ensures visit == old(visit) && form == old(form) && isEditing == old(isEditing)
      ensures error == old(error) && loading == old(loading)
    {
      var favorites := stored;
      var updated: seq<int>;
      if isFavorited {
        updated := Remove(favorites, id);
        isFavorited := false;
      } else {
        updated := favorites + [id];
        isFavorited := true;
      }
      stored := updated;
    }

    /** The effect that reseeds the form from the record whenever editing is off. */
    method SyncForm()
      modifies this
      ensures visit.Some? && !isEditing ==> form == FormOf(visit.value)
      ensures !(visit.Some? && !isEditing) ==> form == old(form)
      ensures visit == old(visit) && isEditing == old(isEditing) && stored == old(stored)
      ensures isFavorited == old(isFavorited) && error == old(error) && loading == old(loading)
    {
      if visit.Some? && !isEditing {
        form := FormOf(visit.value);
      }
    }

    method HandleEdit()
      modifies this
      ensures isEditing && visit == old(visit) && form == old(form)
      ensures stored == old(stored) && isFavorited == old(isFavorited) && error == old(error) && loading == old(loading)
    {
      isEditing := true;
    }

    /** `handleSave`: merge the form into the record and leave edit mode. */
    method HandleSave()
      requires visit.Some?
      modifies this
      ensures visit == Some(Save(old(visit.value), old(form)))
      ensures !isEditing && form == old(form) && stored == old(stored)
      ensures isFavorited == old(isFavorited) && error == old(error) && loading == old(loading)
    {
      visit := Some(Save(visit.value, form));
      isEditing := false;
    }

    /** `handleCancel`: drop the edits and leave edit mode. */
    method HandleCancel()
      requires visit.Some?
      modifies this
      ensures visit == old(visit) && stored == old(stored)
      ensures form == FormOf(visit.value) && !isEditing
      ensures isFavorited == old(isFavorited) && error == old(error) && loading == old(loading)
    {
      form := FormOf(visit.value);
      isEditing := false;
    }
  }
}
