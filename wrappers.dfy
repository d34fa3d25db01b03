/** Option and Result, the failure-carrying values the dumpers return instead of raising. */
module Wrappers {

  datatype Option<+T> = None | Some(value: T)

  datatype Result<+T, +E> = Success(value: T) | Failure(error: E)
}

/** The assertion and HTTP failures the dump pipeline can stop with. */
module Errors {

  datatype Error =
    | NoChunks                          // `assert chunk_lists` in the playlist parser
    | NotAPlaylist(url: string)         // `assert url_playlist.endswith('m3u8')`
    | PlaylistFetchFailed(url: string)  // `raise_for_status` on the playlist request
    | ManifestFetchFailed(url: string)  // `raise_for_status` on the manifest request
    | ChunkFetchFailed                  // a chunk request failed (re-raised by `future.result()`)
    | PlaylistUrlMissing                // `assert url_playlist` in WebinarRu
    | UnexpectedVideoUrl(url: string)   // `assert 'record-new/' in url_video`
    | ChunklistUrlExpected(url: string) // `assert '/chunklist.m3u8' in url_chunklist`
    | ManifestNotFound                  // `assert manifest` in YandexDisk
    | NoResources                       // `resources[0]` on an empty resource map
}
