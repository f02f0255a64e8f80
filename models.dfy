/** The fields of the provider records that the modelled logic reads. Each datatype
    mirrors one pydantic model of the repository; fields nothing here reads are omitted. */
module Models {
  import opened Common

  // MusicBrainz

  datatype MbRelation = MbRelation(relType: string, artist: Option<map<string, Json>>)

  datatype MbArtist = MbArtist(
    id: string,
    name: string,
    score: Option<int>,
    relations: Option<seq<MbRelation>>)

  datatype MbReleaseGroup = MbReleaseGroup(
    id: string,
    title: string,
    primaryType: Option<string>,
    secondaryTypes: Option<seq<string>>,
    firstReleaseDate: Option<string>)

  datatype MbRelease = MbRelease(id: string, title: string)

  datatype MbRecording = MbRecording(id: string, title: string)

  datatype CoverArtImage = CoverArtImage(image: string, front: bool)

  // Spotify

  datatype SpotifyArtist = SpotifyArtist(
    id: string,
    name: string,
    popularity: Option<int>,
    genres: seq<string>,
    followers: Option<int>,
    imageUrls: seq<string>)

  datatype SpotifyAlbum = SpotifyAlbum(
    id: string,
    name: string,
    albumType: string,
    releaseDate: string,
    imageUrls: seq<string>)

  datatype SpotifyTrack = SpotifyTrack(id: string, name: string, popularity: Option<int>)

  /** A track listing item (`SpotifyTrackSimplified`): it carries no popularity. */
  datatype SpotifyTrackItem = SpotifyTrackItem(id: string, name: string)
}
