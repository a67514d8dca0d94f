/**
 * The ranking screen's helpers: avatar URLs, medal colours and icons, the
 * rank badge, the "me" marker and the placeholder for an unknown rank.
 */
module Rank {
  import opened Wrappers
  import opened Js
  import Api

  const StoragePath: string := "/storage/"
  const Gold: string := "#FFD700"
  const Silver: string := "#C0C0C0"
  const Bronze: string := "#CD7F32"
  const DefaultMedal: string := "#5a7fa5"
  const PlainBadge: string := "#1a2a40"
  const MedalIconName: string := "medal-outline"
  const RibbonIconName: string := "ribbon-outline"

  /** getImageUrl: no URL for a missing or empty image; an absolute URL as
      it is; otherwise a path under the server's storage. */
  function ImageUrl(image: Option<string>): (url: Option<string>)
    ensures url.None? <==> !TruthyText(image)
    ensures url.Some? ==> "http" <= url.value
    ensures url.Some? && "http" <= image.value ==> url.value == image.value
    ensures url.Some? && !("http" <= image.value) ==> url.value == Api.BaseUrl + StoragePath + image.value
  {
    if !TruthyText(image) then None
    else if "http" <= image.value then image
    else Some(Api.BaseUrl + StoragePath + image.value)
  }

  /** Resolving a resolved URL again changes nothing. */
  lemma ImageUrlIdempotent(image: Option<string>)
    ensures ImageUrl(ImageUrl(image)) == ImageUrl(image)
  {
  }

  /** getMedalColor */
  function MedalColor(rank: int): (color: string)
    ensures color == DefaultMedal <==> rank < 1 || rank > 3
    ensures rank == 1 ==> color == Gold
    ensures rank == 2 ==> color == Silver
    ensures rank == 3 ==> color == Bronze
  {
    if rank == 1 then Gold
    else if rank == 2 then Silver
    else if rank == 3 then Bronze
    else DefaultMedal
  }

  /** The three podium places have three different colours. */
  lemma PodiumColoursDistinct(a: int, b: int)
    requires 1 <= a <= 3 && 1 <= b <= 3 && a != b
    ensures MedalColor(a) != MedalColor(b)
  {
  }

  /** getMedalIcon */
  function MedalIcon(rank: int): (icon: string)
    ensures icon == MedalIconName <==> rank <= 3
    ensures icon == MedalIconName || icon == RibbonIconName
  {
    if rank <= 3 then MedalIconName else RibbonIconName
  }

  datatype BadgeContent = MedalGlyph(color: string) | Number(rank: int)

  datatype Badge = Badge(background: string, content: BadgeContent)

  /** The rank badge of a row in renderWorker: up to rank 3 the medal colour
      with alpha "20" behind a medal in that colour, otherwise a plain badge
      with the number. */
  function RankBadge(rank: int): (badge: Badge)
    ensures badge.content.MedalGlyph? <==> rank <= 3
    ensures rank <= 3 ==> badge.background == MedalColor(rank) + "20" && badge.content.color == MedalColor(rank)
    ensures rank > 3 ==> badge == Badge(PlainBadge, Number(rank))
    ensures badge.content.MedalGlyph? <==> MedalIcon(rank) == MedalIconName
  {
    if rank <= 3 then Badge(MedalColor(rank) + "20", MedalGlyph(MedalColor(rank)))
    else Badge(PlainBadge, Number(rank))
  }

  datatype Avatar = Photo(url: string) | PersonIcon

  /** The avatar of a row: the image's URL when there is an image, the
      person icon otherwise. */
  function AvatarFor(image: Option<string>): (avatar: Avatar)
    ensures avatar.Photo? <==> TruthyText(image)
    ensures avatar.Photo? ==> ImageUrl(image) == Some(avatar.url)
  {
    if TruthyText(image) then Photo(ImageUrl(image).value) else PersonIcon
  }

  /** `data?.my_stats?.id === item.id`, where `myId` is the id of my_stats
      when the data and my_stats are present. */
  function IsMe(myId: Option<int>, id: int): (me: bool)
    ensures me <==> myId.Some? && myId.value == id
  {
    match myId
    case None => false
    case Some(mine) => mine == id
  }

  /** What the header shows as my rank: the placeholder "—" or a place. */
  datatype RankLabel = Dash | Place(rank: int)

  /** The header's rank: absent without my_stats, and `my_rank || "—"`
      otherwise. */
  function MyRankLabel(hasMyStats: bool, myRank: Option<int>): (shown: Option<RankLabel>)
    ensures shown.None? <==> !hasMyStats
    ensures shown == Some(Dash) <==> hasMyStats && (myRank.None? || myRank.value == 0)
    ensures shown.Some? && shown.value.Place? ==> myRank == Some(shown.value.rank) && shown.value.rank != 0
  {
    if !hasMyStats then None
    else if myRank.None? || myRank.value == 0 then Some(Dash)
    else Some(Place(myRank.value))
  }
}
