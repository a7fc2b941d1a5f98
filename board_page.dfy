/** The boards screen (`src/screens/BoardPage.tsx`): the cover shown for a board, the
    boards listed for the signed-in user, and the create-board form. */
module BoardPage {
  import opened Wrappers
  import opened Text
  import opened Seqs
  import AppStore

  datatype Board = Board(id: string, name: string, userId: string, artworkIds: seq<string>,
                         coverImage: Option<string>, createdAt: string)

  /** `getBoardCoverImage`: the image of the work the board lists first, '' when the board
      is empty, that work is not in the catalogue, or it has no image. */
  function BoardCoverImage(board: Board, artworks: seq<AppStore.Artwork>): (r: string)
    ensures board.artworkIds == [] ==> r == ""
    ensures r != "" ==> exists i | 0 <= i < |artworks| :: artworks[i].id == board.artworkIds[0] && artworks[i].image == r
  {
    if board.artworkIds == [] then ""
    else
      match Find(artworks, (a: AppStore.Artwork) => a.id == board.artworkIds[0])
      case Some(a) => a.image
      case None => ""
  }

  /** Only the first listed work is consulted. */
  lemma CoverUsesFirstOnly(board: Board, artworks: seq<AppStore.Artwork>, first: string, rest: seq<string>)
    ensures BoardCoverImage(board.(artworkIds := [first] + rest), artworks) ==
            BoardCoverImage(board.(artworkIds := [first]), artworks)
  {
  }

  /** The cover is the first catalogue match's image when the first id is in the catalogue. */
  lemma CoverOfListedWork(board: Board, artworks: seq<AppStore.Artwork>, k: int)
    requires board.artworkIds != [] && 0 <= k < |artworks| && artworks[k].id == board.artworkIds[0]
    requires forall i | 0 <= i < k :: artworks[i].id != board.artworkIds[0]
    ensures BoardCoverImage(board, artworks) == artworks[k].image
  {
    var p := (a: AppStore.Artwork) => a.id == board.artworkIds[0];
    var f := Find(artworks, p);
    assert p(artworks[k]);
    var j :| 0 <= j < |artworks| && artworks[j] == f.value && forall m | 0 <= m < j :: !p(artworks[m]);
    assert j == k;
  }

  /** The boards listed: `None` when nobody is signed in (the screen asks to log in), else
      the user's own boards; the subtitle count is the length of that list. */
  function UserBoards(boards: seq<Board>, currentUser: Option<AppStore.User>): (r: Option<seq<Board>>)
    ensures r.None? <==> currentUser.None?
    ensures r.Some? ==> forall i | 0 <= i < |r.value| :: r.value[i].userId == currentUser.value.id && r.value[i] in boards
    ensures r.Some? ==> forall i | 0 <= i < |boards| :: boards[i].userId == currentUser.value.id ==> boards[i] in r.value
  {
    match currentUser
    case None => None
    case Some(u) => Some(Filter(boards, (b: Board) => b.userId == u.id))
  }

  /** When every board is the user's, all are listed and the count is their number. */
  lemma {:induction false} AllOwnBoardsListed(boards: seq<Board>, user: AppStore.User)
    requires forall i | 0 <= i < |boards| :: boards[i].userId == user.id
    ensures UserBoards(boards, Some(user)) == Some(boards)
  {
    FilterAll(boards, (b: Board) => b.userId == user.id);
  }

  /** The user's boards are picked board by board, in order: listing a concatenation is
      concatenating the lists of its parts. */
  lemma UserBoardsAppend(a: seq<Board>, b: seq<Board>, user: AppStore.User)
    ensures UserBoards(a + b, Some(user)).value == UserBoards(a, Some(user)).value + UserBoards(b, Some(user)).value
  {
    FilterAppend(a, b, (x: Board) => x.userId == user.id);
  }

  /** A single board is listed exactly when it is the user's; with `UserBoardsAppend` this
      fixes the list, and so the subtitle count, for every input. */
  lemma UserBoardsSingle(b: Board, user: AppStore.User)
    ensures UserBoards([b], Some(user)).value == if b.userId == user.id then [b] else []
  {
    FilterCons([b], (x: Board) => x.userId == user.id);
  }

  class CreateBoardForm {
    var boardName: string
    var showCreateModal: bool

    constructor ()
      ensures boardName == "" && !showCreateModal
    {
      boardName, showCreateModal := "", false;
    }

    /** `handleCreateBoard`: returns the name passed to `createBoard`, if any. A blank name is
        refused and changes nothing; a valid one is passed trimmed, then the field is emptied
        and the modal closed. */
    method HandleCreateBoard() returns (call: Option<string>)
      modifies this
      ensures call.Some? <==> !Blank(old(boardName))
      ensures call.Some? ==>
        call.value == Trim(old(boardName)) && call.value != "" && Trimmed(call.value) &&
        boardName == "" && !showCreateModal
      ensures call.None? ==> boardName == old(boardName) && showCreateModal == old(showCreateModal)
    {
      if Trim(boardName) == [] {
        return None;
      }
      call := Some(Trim(boardName));
      boardName := "";
      showCreateModal := false;
    }
  }
}
