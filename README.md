# Media stream constraint builder, in Dafny

A model of the media-capture constraint builder of webrtc-kmp. The builder
assembles an immutable `MediaStreamConstraints` record: an optional audio track
record and an optional video track record, whose attributes are each optional
and, for most of them, a `Constrain<T>` (an optional `exact` value and an
optional `ideal` value). The record has the shape of the
`MediaStreamConstraints`, `MediaTrackConstraintSet` and `Constrain*`
dictionaries of the W3C Media Capture and Streams specification; it is only
assembled here, never resolved against a device.

The records are datatypes. The three builders and Kotlin's mutable
`Constrain<T>` object are classes whose methods reassign their state, as the
Kotlin code does:

- `wrappers.dfy` (`Wrappers`): `Option`, for Kotlin's nullable types.
- `values.dfy` (`Values`): `Int32`, `Double` (a real number: the builders never
  compute on these values), `FacingMode`, `ResizeMode`.
- `constrain.dfy` (`Constrains`): the `Constrain<T>` record, the calls
  `exact(v)` / `ideal(v)` (`ConstrainOp`), the mutable receiver of a
  `field { ... }` block (`MutableConstrain`) and what such a block builds.
- `audio_track.dfy` (`AudioTrack`): `AudioTrackConstraints`, the setter calls of
  an `audio { ... }` block (`AudioOp`) and `AudioTrackConstraintsBuilder`.
- `video_track.dfy` (`VideoTrack`): the same for video.
- `media_stream.dfy` (`MediaStream`): `MediaStreamConstraints` and
  `MediaStreamConstraintsBuilder`.

A Kotlin receiver lambda is modelled as the sequence of calls it makes: a
`field { ... }` block is a `seq<ConstrainOp<T>>`, an `audio { ... }` block a
`seq<AudioOp>`. Each builder method is proved against a function on values
(`Apply`, `ApplyAudio`, `RunAudio`, `ConfigureAudio`, `EnableAudio` and their
video twins), and the lemmas beside those functions state the rules the
builder follows: which call touches which attribute, that nothing else
changes, that the last write wins, that a later block starts from the record
an earlier one left, and that the shorthand `field(v)` equals
`field { exact(v) }`.

## Model

| member | source | states |
|---|---|---|
| Constrains.Apply | src/commonMain/kotlin/com/shepeliev/webrtckmp/MediaStreamConstraints.kt:37-45 | `exact(v)` / `ideal(v)` sets its own part to `v` and leaves the other part as it was |
| Constrains.RunOn | src/commonMain/kotlin/com/shepeliev/webrtckmp/MediaStreamConstraints.kt:37-45 | after a sequence of `exact`/`ideal` calls, each part holds the value of the last call that wrote it, or its earlier value if none did |
| Constrains.BuildOn | src/commonMain/kotlin/com/shepeliev/webrtckmp/MediaStreamConstraints.kt:93-97 | a closure-form block starts from a fresh `Constrain()`: a part no call wrote is absent, otherwise it holds the last call's value |
| Constrains.AnyCombination | src/commonMain/kotlin/com/shepeliev/webrtckmp/MediaStreamConstraints.kt:37 | no validation: both, one or neither part can end up set |
| Constrains.Exactly | src/commonMain/kotlin/com/shepeliev/webrtckmp/MediaStreamConstraints.kt:89-91 | the shorthand `field(v)` stores `exact = v`, no `ideal`, which equals the block `{ exact(v) }` |
| Constrains.MutableConstrain.constructor | src/commonMain/kotlin/com/shepeliev/webrtckmp/MediaStreamConstraints.kt:37 | a new `Constrain()` has neither part set |
| Constrains.MutableConstrain.Exact | src/commonMain/kotlin/com/shepeliev/webrtckmp/MediaStreamConstraints.kt:38-40 | `exact(v)` sets `exact` to `v`; `ideal` is unchanged |
| Constrains.MutableConstrain.Ideal | src/commonMain/kotlin/com/shepeliev/webrtckmp/MediaStreamConstraints.kt:42-44 | `ideal(v)` sets `ideal` to `v`; `exact` is unchanged |
| Constrains.ConfigureConstrain | src/commonMain/kotlin/com/shepeliev/webrtckmp/MediaStreamConstraints.kt:94-95 | a fresh `Constrain` object on which the block's calls are made in order holds `Build(block)` |
| AudioTrack.ApplyAudio | src/commonMain/kotlin/com/shepeliev/webrtckmp/MediaStreamConstraints.kt:81-157 | each audio setter changes its own attribute and every other attribute keeps its value |
| AudioTrack.ReplaceNotMerge | src/commonMain/kotlin/com/shepeliev/webrtckmp/MediaStreamConstraints.kt:93-97 | the value an audio setter writes does not depend on what the attribute held: replace, never merge |
| AudioTrack.LastWriteWins | src/commonMain/kotlin/com/shepeliev/webrtckmp/MediaStreamConstraints.kt:81-157 | calling the same audio setter twice equals calling it once with the second argument |
| AudioTrack.RunAudioOn | src/commonMain/kotlin/com/shepeliev/webrtckmp/MediaStreamConstraints.kt:60 | after an `audio { ... }` block each attribute holds what its last setter call wrote, or its earlier value if no call wrote it |
| AudioTrack.RunAudioConcat | src/commonMain/kotlin/com/shepeliev/webrtckmp/MediaStreamConstraints.kt:56-62 | running two audio blocks in turn equals running their concatenation |
| AudioTrack.AudioTrackConstraintsBuilder.constructor | src/commonMain/kotlin/com/shepeliev/webrtckmp/MediaStreamConstraints.kt:79 | the track builder starts from the record it is given |
| AudioTrack.AudioTrackConstraintsBuilder.DeviceId | src/commonMain/kotlin/com/shepeliev/webrtckmp/MediaStreamConstraints.kt:81-83 | `deviceId(id)` sets `deviceId` to `id`; all else unchanged |
| AudioTrack.AudioTrackConstraintsBuilder.GroupId | src/commonMain/kotlin/com/shepeliev/webrtckmp/MediaStreamConstraints.kt:85-87 | `groupId(id)` sets `groupId` to `id`; all else unchanged |
| AudioTrack.AudioTrackConstraintsBuilder.AutoGainControl | src/commonMain/kotlin/com/shepeliev/webrtckmp/MediaStreamConstraints.kt:89-91 | `autoGainControl(b)` stores `exact = b`, no `ideal`; all else unchanged |
| AudioTrack.AudioTrackConstraintsBuilder.AutoGainControlWith | src/commonMain/kotlin/com/shepeliev/webrtckmp/MediaStreamConstraints.kt:93-97 | `autoGainControl { ... }` replaces the attribute with the block's fresh constrain; all else unchanged |
| AudioTrack.AudioTrackConstraintsBuilder.ChannelCount | src/commonMain/kotlin/com/shepeliev/webrtckmp/MediaStreamConstraints.kt:99-101 | `channelCount(n)` stores `exact = n`, no `ideal`; all else unchanged |
| AudioTrack.AudioTrackConstraintsBuilder.ChannelCountWith | src/commonMain/kotlin/com/shepeliev/webrtckmp/MediaStreamConstraints.kt:103-107 | `channelCount { ... }` replaces the attribute with the block's fresh constrain; all else unchanged |
| AudioTrack.AudioTrackConstraintsBuilder.EchoCancellation | src/commonMain/kotlin/com/shepeliev/webrtckmp/MediaStreamConstraints.kt:109-111 | `echoCancellation(b)` stores `exact = b`, no `ideal`; all else unchanged |
| AudioTrack.AudioTrackConstraintsBuilder.EchoCancellationWith | src/commonMain/kotlin/com/shepeliev/webrtckmp/MediaStreamConstraints.kt:113-117 | `echoCancellation { ... }` replaces the attribute with the block's fresh constrain; all else unchanged |
| AudioTrack.AudioTrackConstraintsBuilder.Latency | src/commonMain/kotlin/com/shepeliev/webrtckmp/MediaStreamConstraints.kt:119-121 | `latency(x)` stores `exact = x`, no `ideal`; all else unchanged |
| AudioTrack.AudioTrackConstraintsBuilder.LatencyWith | src/commonMain/kotlin/com/shepeliev/webrtckmp/MediaStreamConstraints.kt:123-127 | `latency { ... }` replaces the attribute with the block's fresh constrain; all else unchanged |
| AudioTrack.AudioTrackConstraintsBuilder.NoiseSuppression | src/commonMain/kotlin/com/shepeliev/webrtckmp/MediaStreamConstraints.kt:129-131 | `noiseSuppression(b)` stores `exact = b`, no `ideal`; all else unchanged |
| AudioTrack.AudioTrackConstraintsBuilder.NoiseSuppressionWith | src/commonMain/kotlin/com/shepeliev/webrtckmp/MediaStreamConstraints.kt:133-137 | `noiseSuppression { ... }` replaces the attribute with the block's fresh constrain; all else unchanged |
| AudioTrack.AudioTrackConstraintsBuilder.SampleRate | src/commonMain/kotlin/com/shepeliev/webrtckmp/MediaStreamConstraints.kt:139-141 | `sampleRate(n)` stores `exact = n`, no `ideal`; all else unchanged |
| AudioTrack.AudioTrackConstraintsBuilder.SampleRateWith | src/commonMain/kotlin/com/shepeliev/webrtckmp/MediaStreamConstraints.kt:143-147 | `sampleRate { ... }` replaces the attribute with the block's fresh constrain; all else unchanged |
| AudioTrack.AudioTrackConstraintsBuilder.Volume | src/commonMain/kotlin/com/shepeliev/webrtckmp/MediaStreamConstraints.kt:149-151 | `volume(x)` stores `exact = x`, no `ideal`; all else unchanged |
| AudioTrack.AudioTrackConstraintsBuilder.VolumeWith | src/commonMain/kotlin/com/shepeliev/webrtckmp/MediaStreamConstraints.kt:153-157 | `volume { ... }` replaces the attribute with the block's fresh constrain; all else unchanged |
| AudioTrack.AudioTrackConstraintsBuilder.Perform | src/commonMain/kotlin/com/shepeliev/webrtckmp/MediaStreamConstraints.kt:81-157 | one setter call of an audio block updates the record as `ApplyAudio` says |
| AudioTrack.AudioTrackConstraintsBuilder.RunBlock | src/commonMain/kotlin/com/shepeliev/webrtckmp/MediaStreamConstraints.kt:60 | running an audio block on the builder leaves `RunAudio(old record, block)` |
| VideoTrack.ApplyVideo | src/commonMain/kotlin/com/shepeliev/webrtckmp/MediaStreamConstraints.kt:162-228 | each video setter changes its own attribute and every other attribute keeps its value |
| VideoTrack.ReplaceNotMerge | src/commonMain/kotlin/com/shepeliev/webrtckmp/MediaStreamConstraints.kt:204-208 | the value a video setter writes does not depend on what the attribute held: replace, never merge |
| VideoTrack.LastWriteWins | src/commonMain/kotlin/com/shepeliev/webrtckmp/MediaStreamConstraints.kt:162-228 | calling the same video setter twice equals calling it once with the second argument (a later `height { ideal(x) }` discards an earlier `exact`) |
| VideoTrack.RunVideoOn | src/commonMain/kotlin/com/shepeliev/webrtckmp/MediaStreamConstraints.kt:74 | after a `video { ... }` block each attribute holds what its last setter call wrote, or its earlier value if no call wrote it |
| VideoTrack.RunVideoConcat | src/commonMain/kotlin/com/shepeliev/webrtckmp/MediaStreamConstraints.kt:70-76 | running two video blocks in turn equals running their concatenation |
| VideoTrack.VideoTrackConstraintsBuilder.constructor | src/commonMain/kotlin/com/shepeliev/webrtckmp/MediaStreamConstraints.kt:160 | the track builder starts from the record it is given |
| VideoTrack.VideoTrackConstraintsBuilder.DeviceId | src/commonMain/kotlin/com/shepeliev/webrtckmp/MediaStreamConstraints.kt:162-164 | `deviceId(id)` sets `deviceId` to `id`; all else unchanged |
| VideoTrack.VideoTrackConstraintsBuilder.GroupId | src/commonMain/kotlin/com/shepeliev/webrtckmp/MediaStreamConstraints.kt:166-168 | `groupId(id)` sets `groupId` to `id`; all else unchanged |
| VideoTrack.VideoTrackConstraintsBuilder.AspectRatio | src/commonMain/kotlin/com/shepeliev/webrtckmp/MediaStreamConstraints.kt:170-172 | `aspectRatio(x)` stores `exact = x`, no `ideal`; all else unchanged |
| VideoTrack.VideoTrackConstraintsBuilder.AspectRatioWith | src/commonMain/kotlin/com/shepeliev/webrtckmp/MediaStreamConstraints.kt:174-178 | `aspectRatio { ... }` replaces the attribute with the block's fresh constrain; all else unchanged |
| VideoTrack.VideoTrackConstraintsBuilder.FacingMode | src/commonMain/kotlin/com/shepeliev/webrtckmp/MediaStreamConstraints.kt:180-182 | `facingMode(m)` stores `exact = m`, no `ideal`; all else unchanged |
| VideoTrack.VideoTrackConstraintsBuilder.FacingModeWith | src/commonMain/kotlin/com/shepeliev/webrtckmp/MediaStreamConstraints.kt:184-188 | `facingMode { ... }` replaces the attribute with the block's fresh constrain; all else unchanged |
| VideoTrack.VideoTrackConstraintsBuilder.FrameRate | src/commonMain/kotlin/com/shepeliev/webrtckmp/MediaStreamConstraints.kt:190-192 | `frameRate(x)` stores `exact = x`, no `ideal`; all else unchanged |
| VideoTrack.VideoTrackConstraintsBuilder.FrameRateWith | src/commonMain/kotlin/com/shepeliev/webrtckmp/MediaStreamConstraints.kt:194-198 | `frameRate { ... }` replaces the attribute with the block's fresh constrain; all else unchanged |
| VideoTrack.VideoTrackConstraintsBuilder.Height | src/commonMain/kotlin/com/shepeliev/webrtckmp/MediaStreamConstraints.kt:200-202 | `height(n)` stores `exact = n`, no `ideal`; all else unchanged |
| VideoTrack.VideoTrackConstraintsBuilder.HeightWith | src/commonMain/kotlin/com/shepeliev/webrtckmp/MediaStreamConstraints.kt:204-208 | `height { ... }` replaces the attribute with the block's fresh constrain; all else unchanged |
| VideoTrack.VideoTrackConstraintsBuilder.Width | src/commonMain/kotlin/com/shepeliev/webrtckmp/MediaStreamConstraints.kt:210-212 | `width(n)` stores `exact = n`, no `ideal`; all else unchanged |
| VideoTrack.VideoTrackConstraintsBuilder.WidthWith | src/commonMain/kotlin/com/shepeliev/webrtckmp/MediaStreamConstraints.kt:214-218 | `width { ... }` replaces the attribute with the block's fresh constrain; all else unchanged |
| VideoTrack.VideoTrackConstraintsBuilder.ResizeMode | src/commonMain/kotlin/com/shepeliev/webrtckmp/MediaStreamConstraints.kt:220-222 | `resizeMode(m)` stores `exact = m`, no `ideal`; all else unchanged |
| VideoTrack.VideoTrackConstraintsBuilder.ResizeModeWith | src/commonMain/kotlin/com/shepeliev/webrtckmp/MediaStreamConstraints.kt:224-228 | `resizeMode { ... }` replaces the attribute with the block's fresh constrain; all else unchanged |
| VideoTrack.VideoTrackConstraintsBuilder.Perform | src/commonMain/kotlin/com/shepeliev/webrtckmp/MediaStreamConstraints.kt:162-228 | one setter call of a video block updates the record as `ApplyVideo` says |
| VideoTrack.VideoTrackConstraintsBuilder.RunBlock | src/commonMain/kotlin/com/shepeliev/webrtckmp/MediaStreamConstraints.kt:74 | running a video block on the builder leaves `RunVideo(old record, block)` |
| MediaStream.ConfigureAudio | src/commonMain/kotlin/com/shepeliev/webrtckmp/MediaStreamConstraints.kt:56-62 | `audio { ... }` leaves `video` untouched and sets `audio` to the block run on the existing audio record, or on an empty one if there was none |
| MediaStream.EnableAudio | src/commonMain/kotlin/com/shepeliev/webrtckmp/MediaStreamConstraints.kt:50-54 | `audio(false)` changes nothing; `audio(true)` keeps an existing audio record and otherwise adds an empty one |
| MediaStream.ConfigureVideo | src/commonMain/kotlin/com/shepeliev/webrtckmp/MediaStreamConstraints.kt:70-76 | `video { ... }` leaves `audio` untouched and sets `video` to the block run on the existing video record, or on an empty one if there was none |
| MediaStream.EnableVideo | src/commonMain/kotlin/com/shepeliev/webrtckmp/MediaStreamConstraints.kt:64-68 | `video(false)` changes nothing; `video(true)` keeps an existing video record and otherwise adds an empty one |
| MediaStream.AudioBlocksAccumulate | src/commonMain/kotlin/com/shepeliev/webrtckmp/MediaStreamConstraints.kt:56-62 | two successive `audio { ... }` blocks equal one block with the calls of both |
| MediaStream.VideoBlocksAccumulate | src/commonMain/kotlin/com/shepeliev/webrtckmp/MediaStreamConstraints.kt:70-76 | two successive `video { ... }` blocks equal one block with the calls of both |
| MediaStream.AudioBlockKeepsUnwritten | src/commonMain/kotlin/com/shepeliev/webrtckmp/MediaStreamConstraints.kt:56-62 | an `audio { ... }` block keeps every attribute of the existing audio record that it does not write |
| MediaStream.VideoBlockKeepsUnwritten | src/commonMain/kotlin/com/shepeliev/webrtckmp/MediaStreamConstraints.kt:70-76 | a `video { ... }` block keeps every attribute of the existing video record that it does not write |
| MediaStream.CameraAndMicrophone | src/commonMain/kotlin/com/shepeliev/webrtckmp/MediaStreamConstraints.kt:50-76 | `audio(true)` then `video { width(1280); height(720) }` from a new builder gives an empty audio record and a video record with only those two `exact` values |
| MediaStream.MediaStreamConstraintsBuilder.constructor | src/commonMain/kotlin/com/shepeliev/webrtckmp/MediaStreamConstraints.kt:48 | a new builder requests neither audio nor video |
| MediaStream.MediaStreamConstraintsBuilder.Audio | src/commonMain/kotlin/com/shepeliev/webrtckmp/MediaStreamConstraints.kt:50-54 | the builder's record becomes `EnableAudio(old record, enabled)` |
| MediaStream.MediaStreamConstraintsBuilder.AudioWith | src/commonMain/kotlin/com/shepeliev/webrtckmp/MediaStreamConstraints.kt:56-62 | the builder's record becomes `ConfigureAudio(old record, block)`, through a fresh track builder |
| MediaStream.MediaStreamConstraintsBuilder.Video | src/commonMain/kotlin/com/shepeliev/webrtckmp/MediaStreamConstraints.kt:64-68 | the builder's record becomes `EnableVideo(old record, enabled)` |
| MediaStream.MediaStreamConstraintsBuilder.VideoWith | src/commonMain/kotlin/com/shepeliev/webrtckmp/MediaStreamConstraints.kt:70-76 | the builder's record becomes `ConfigureVideo(old record, block)`, through a fresh track builder |

## Left out

- `Size` is a data class that the builders never use, so it is not modelled.
- `Double` values are stored and never computed on, so a real number stands in for the floating-point value; NaN and signed zeros are not modelled.
- Kotlin's `Int` is the range-restricted `Int32`; the builders never compute on it, so no wrap-around arises.
- A receiver lambda is modelled as the sequence of builder calls it makes. Arbitrary Kotlin code inside a block (conditionals, loops, side effects elsewhere, calls on a captured outer builder) is not modelled.
- Inside an `audio { ... }` or `video { ... }` block, a shorthand call `field(v)` is written as its closure form `field { exact(v) }`; the builder methods prove the two store the same record.
- Aliasing is not modelled. Kotlin stores the `Constrain` object that the block configured, so a block that leaks its receiver could change the stored record later; the model stores the record value the block left.
- Default argument values (`audio()`, `video()`, `autoGainControl()`, `echoCancellation()`, `noiseSuppression()` default to `true`) are call-site conveniences; the model takes the argument explicitly.
- The members a Kotlin data class generates (`equals`, `hashCode`, `toString`, `componentN`) are not modelled; Dafny's datatype equality and update expressions stand in for `equals` and `copy`.
- The consumer of the finished record (the capture call that resolves constraints against devices) is not part of this model.
