# Atmel SAMA5/AT91 display, video and HDMI drivers: a Dafny model

This project models the display and video core of the Atmel AT91/SAMA5
Linux board support.

- **HEO overlay (at91sam9x5-video).** The V4L2 output driver for the
  High-End Overlay (HEO) layer of the HLCD controller, which is the
  centre of the model. It covers:
  - the rotated scan strides and the scaling factors;
  - the window check and the register configuration it programs;
  - the three self-linked DMA descriptors in each buffer;
  - the `cur`/`next` buffer pipeline driven by the DMA interrupt;
  - the deferred configuration state machine (`cfg_state`/`hwstate`);
  - the videobuf2 queue callbacks, and the format and control ioctls that
    reach the hardware.
- **LCD framebuffer core and HLCDC back-end.** The generic framebuffer
  operations:
  - the `check_var` validation and colour layout;
  - `set_par`, palette registration, panning and blanking;
  - for the HLCDC back-end: the DMA address, the RGB mode, the pixel
    clock, the timing registers, the overlay position, the
    start/stop/suspend/resume sequences and the interrupt.
- **SiI9022 HDMI encoder.** The EDID extension-block parser, the
  DDC-bus request/release handshake, power on/off and the hot-plug
  interrupt. The audio codec part adds the DAI format and rate
  translation, the start/stop/mute register writes and the I2S FIFO
  routing merge.
- **OV7740 camera sensor.** The register-array writer, the masked
  read-modify-write, flips, window selection, format normalisation, and
  the register and probe paths.
- **AT91 power management.** The reset-cause report, `valid`, the memory
  controller word, the clock check before standby, and the suspend step
  sequence including the slow-clock path.
- **SAMA5 board file.** The ISI sensor bus fix-up and the display mode
  choice.
- **ASoC machine driver.** The hw_params clock divider computation and the
  bias-level clock handling.

How the model is organised:

- Modules follow the source files.
- `Common` holds the 32-bit wrap-around helpers.
- `Fb` holds the framebuffer screen-info records.
- `HeoRegs`, `HeoGeometry`, `HeoPipeline` and `HeoChannel` split the
  overlay driver into register fields, arithmetic, buffer ownership and
  the channel state.
- Objects whose fields the drivers update in place are classes. Each
  method states its new state as a function of the old one:
  - the overlay channel `HeoChannel.Heo`;
  - the framebuffer `LcdfbCore.Framebuffer`;
  - the controller `Hlcdfb.Hlcdc`;
  - `Sii9022Edid.Sii902x`, `Sii9022Audio.AudioCodec` and
    `Ov7740.Sensor`;
  - the PM state `AtPm.Pm`;
  - the board display `BoardSama5.BoardDisplay`.
- Those functions carry the lemmas.

How I/O is represented:

- Register writes and bus transfers become logs of writes.
- Register reads, I2C replies and hardware status become parameters.
- Polling loops become the sequence of status values they read.

## Model

| member | source | states |
|---|---|---|
| Common.DivRoundUp32 | drivers/media/platform/at91sam9x5-video.c:802-803 | DIV_ROUND_UP on a u32 wraps the sum before dividing. Below the wrap it equals the exact rounding up, and it is always a u32. |
| Common.RoundUpWrapsAtTop | drivers/media/platform/at91sam9x5-video.c:821 | Halving 0xFFFFFFFF rounded up gives 0 in u32 where the exact value is 2^31, and 0xFFFFFFFC bits round to 0 bytes. |
| HeoRegs.FieldsWellFormed | drivers/media/platform/at91sam9x5-video.c:114-171 | Each register field mask is contiguous and fits its shift. The X/Y position, X/Y factor and X/Y phase fields of one register do not overlap. The factor fields stay clear of the scaler-enable bit. |
| HeoRegs.PackPosition | drivers/media/platform/at91sam9x5-video.c:171-174 | A position word built from x and y reads back each coordinate as its low 11 bits. |
| HeoRegs.PackFactor | drivers/media/platform/at91sam9x5-video.c:157-174 | A scaling word built from the x and y factors reads back each factor as its low 13 bits. |
| HeoGeometry.VideoParams | drivers/media/platform/at91sam9x5-video.c:581-612 | The three strides and the start offset are 32-bit values. A negative rotation is excluded, because it would index the corner table before its start. |
| HeoGeometry.DisplayWalk | drivers/media/platform/at91sam9x5-video.c:581-612 | For every rotation the hardware walk reproduces the rotated scan of the frame exactly, modulo 2^32. The walk starts at tloffset, adds pstride between pixels and xstride from the end of one line to the next. |
| HeoGeometry.WalkExact | drivers/media/platform/at91sam9x5-video.c:581-612 | Before wrapping, the corner and neighbour differences equal the differences of consecutive scan offsets. |
| HeoGeometry.NoRotationIsIdentity | drivers/media/platform/at91sam9x5-video.c:581-612 | Without rotation the frame is read in memory order: both strides are 1 and the start is 0. |
| HeoGeometry.OffsetsInsideFrame | drivers/media/platform/at91sam9x5-video.c:581-612 | For frames of at least 2x2 pixels, every corner and neighbour offset is a pixel of the frame. |
| HeoGeometry.StartInsideFrame | drivers/media/platform/at91sam9x5-video.c:581-612 | When the frame fits 32 bits, the start offset is the unwrapped corner where the rotated scan begins, and that corner is inside the frame. |
| HeoGeometry.ScalingFactor | drivers/media/platform/at91sam9x5-video.c:652-662 | The factor is a 32-bit value. |
| HeoGeometry.ScalingFactorBound | drivers/media/platform/at91sam9x5-video.c:652-662 | The decrement makes the last phase fall inside the source: the covered memory is at most mem. The result is the estimate or one less, and it is the estimate exactly when the estimate already fits. Sizes below 2048 never need the decrement. |
| HeoGeometry.ValidWindowUnclamped | drivers/media/platform/at91sam9x5-video.c:705-777 | A window that passes the screen check reaches the hardware unclamped, and the memory size read is the whole rotated frame. |
| HeoGeometry.ValidWindowNotClamped | drivers/media/platform/at91sam9x5-video.c:705-723 | Clamping leaves a valid window exactly as requested. |
| HeoGeometry.QueueSetupPassesPrepare | drivers/media/platform/at91sam9x5-video.c:896-1003 | queue_setup accepts exactly YUV420, UYVY and YUYV. The size it gives always passes buf_prepare's length check, with equality for YUV420. |
| HeoGeometry.DescriptorsFit | drivers/media/platform/at91sam9x5-video.c:980-1003 | In every buffer buf_prepare accepts, the 11 descriptor words start after the 4:2:0 frame data, on a 64-byte boundary, and end inside the buffer. |
| HeoGeometry.ChromaWrapsBeforeHalving | drivers/media/platform/at91sam9x5-video.c:919-920 | For 65536x65536 YUV420, the u32 chroma product wraps to 0 before the halving. The frame is 0 bytes and the buffer 416. |
| HeoGeometry.SizesExact | drivers/media/platform/at91sam9x5-video.c:896-938 | Without overflow the frame size, the prepare minimum (frame + 416) and the descriptor offset are computed without wrapping. |
| HeoGeometry.RotateAsWrittenAccepts | drivers/media/platform/at91sam9x5-video.c:1290-1296 | The rotation check as written accepts exactly the multiples of 90 from -270 to 270. |
| HeoGeometry.NegativeRotationIndexesBeforeCorners | drivers/media/platform/at91sam9x5-video.c:1290-1296 | -90 passes the check as written and stores rotation -1, whose first corner index is -1 under C's remainder. |
| HeoGeometry.RotateValueAcceptedIsAdvertised | drivers/media/platform/at91sam9x5-video.c:1290-1296 | The corrected check accepts exactly 0, 90, 180 and 270, the advertised range. Each accepted value is also accepted as written, and is stored as a rotation in 0..3 that reads back as the value. |
| HeoPipeline.PlaneInUseMeaning | drivers/media/platform/at91sam9x5-video.c:347-361 | The controller is using a plane exactly when its current address lies between the plane start and start + size, modulo 2^32. |
| HeoPipeline.InSlotsIsHeld | drivers/media/platform/at91sam9x5-video.c:347-377 | A buffer is in cur or next exactly when the pipeline holds it. |
| HeoPipeline.Promote | drivers/media/platform/at91sam9x5-video.c:388-391 | Moving next into an empty cur keeps the held buffers. Afterwards next is set only when cur is. Well-formedness and distinctness are preserved. |
| HeoPipeline.IrqStepMeaning | drivers/media/platform/at91sam9x5-video.c:379-430 | The interrupt step accounts for every buffer: held before = held after + returned, and all returned buffers are marked done. Idle with the channel stopped flushes both slots. Otherwise at most the promoted cur is returned, only when the controller has left it (or the configuration is bad and the channel is stopped). Distinctness is preserved. While running, cur stays occupied whenever a buffer was held. |
| HeoPipeline.IrqKeepsCur | drivers/media/platform/at91sam9x5-video.c:379-430 | While the hardware runs, the interrupt leaves cur set exactly when cur or next was set. |
| HeoPipeline.IrqKeepsOut | drivers/media/platform/at91sam9x5-video.c:379-430 | The interrupt never brings a buffer into the slots. |
| HeoPipeline.ShowStepMeaning | drivers/media/platform/at91sam9x5-video.c:557-574 | Showing b accounts for every buffer and sets next to b, returning at most one buffer. If cur is still in use, cur stays and the old next is dropped. Otherwise next moves to cur and the old cur completes. A fresh b keeps the slots distinct. |
| HeoPipeline.BounceStepMeaning | drivers/media/platform/at91sam9x5-video.c:1023-1026 | A buffer queued while the configuration is bad is returned at once, and the slots are untouched. |
| HeoPipeline.ApplyConserves | drivers/media/platform/at91sam9x5-video.c:379-574 | Any single event (interrupt, show, bounce, restart) conserves buffers: held + submitted = held' + returned. |
| HeoPipeline.RunConserves | drivers/media/platform/at91sam9x5-video.c:379-574 | Over any sequence of events, every submitted buffer is either still held or returned, exactly once each. |
| HeoPipeline.ApplyKeepsDistinct | drivers/media/platform/at91sam9x5-video.c:379-574 | An event whose buffer is not already held keeps cur and next distinct. |
| HeoPipeline.RunKeepsDistinct | drivers/media/platform/at91sam9x5-video.c:379-574 | If the driver never resubmits a buffer it holds, cur and next stay distinct over any run. |
| HeoPipeline.ResubmittingCurHoldsItTwice | drivers/media/platform/at91sam9x5-video.c:873-883 | Showing the buffer in cur again while the controller still uses it leaves it in both slots (multiplicity 2). |
| HeoChannel.Descriptors | drivers/media/platform/at91sam9x5-video.c:488-508 | One descriptor per plane (Y, U, V). |
| HeoChannel.BufDescriptors | drivers/media/platform/at91sam9x5-video.c:488-508 | The three descriptors of a buffer at the format's descriptor offset, one per plane. |
| HeoChannel.DescriptorsSelfLoop | drivers/media/platform/at91sam9x5-video.c:488-508 | After the store, each of the three descriptors links to itself and carries its plane address. All other memory is unchanged. |
| HeoChannel.StartWritesMeaning | drivers/media/platform/at91sam9x5-video.c:512-555 | The last write is CHER. It has UPDATEEN iff the configuration is to be latched, A2QEN iff the channel runs, and CHEN iff it is stopped. A running channel gets the three descriptor heads queued. A stopped one gets ADDR/NEXT of each plane programmed. |
| HeoChannel.CoefCountsCoherent | drivers/media/platform/at91sam9x5-video.c:615-650 | The coefficient register span holds exactly the number of down- and up-scaling coefficients. |
| HeoChannel.ScalingCoefWritesMeaning | drivers/media/platform/at91sam9x5-video.c:615-650 | One write per coefficient register, from BASE to END in order. Each write takes the downscaling table iff mem >= size. The writes end with CFG41 = phase defaults (4, 4). |
| HeoChannel.Cfg1WritesMeaning | drivers/media/platform/at91sam9x5-video.c:733-753 | CFG1 always ends with YUV enabled, in 4:2:2 packed mode for YUYV/UYVY and planar 4:2:0 otherwise. YUV420 takes a second write. |
| HeoChannel.ConfigOfValidWindow | drivers/media/platform/at91sam9x5-video.c:678-827 | A valid window wider and taller than one pixel is configurable. The configuration programs the requested window and the whole rotated frame, and both factors stay inside the frame. |
| HeoChannel.ValidWindowConfigurable | drivers/media/platform/at91sam9x5-video.c:788-792 | A valid window is configurable exactly when it is not one pixel wide or high; those would divide by zero. |
| HeoChannel.ConfigTransitionMeaning | drivers/media/platform/at91sam9x5-video.c:836-891 | Reconfiguration never changes the hardware state. It marks the configuration bad iff the window is invalid, and latches it unless the overlay alone changes while the channel runs. |
| HeoChannel.ConfigWritesAvoidChdr | drivers/media/platform/at91sam9x5-video.c:678-827 | Applying a configuration never writes the channel-disable register. |
| HeoChannel.IrqUpdate | drivers/media/platform/at91sam9x5-video.c:379-430 | The slot update of the interrupt handler computes the interrupt step and its register writes. |
| HeoChannel.IrqSlotUpdate | drivers/media/platform/at91sam9x5-video.c:379-430 | The slot update of the interrupt handler computes the interrupt step. |
| HeoChannel.ShowSlotUpdate | drivers/media/platform/at91sam9x5-video.c:557-574 | The slot update of show_buf computes the show step. |
| HeoChannel.IrqChanMeaning | drivers/media/platform/at91sam9x5-video.c:379-430 | The interrupt preserves the channel invariant, and next is set only when cur is. |
| HeoChannel.IrqChanAccounts | drivers/media/platform/at91sam9x5-video.c:379-430 | The interrupt conserves buffers, and every buffer it returns is marked done. |
| HeoChannel.IrqChanKeepsCur | drivers/media/platform/at91sam9x5-video.c:379-430 | While running, the interrupt leaves cur set exactly when a buffer was held. |
| HeoChannel.IrqChanWrites | drivers/media/platform/at91sam9x5-video.c:379-430 | The interrupt writes at most one register. It masks the DMA interrupts exactly when the channel is idle and stopped. |
| HeoChannel.ShowBufMeaning | drivers/media/platform/at91sam9x5-video.c:463-575 | show_buf keeps the invariant. Afterwards the channel runs, the configuration is good, the new buffer is next, and its descriptors are self-linked. |
| HeoChannel.ShowBufAccounts | drivers/media/platform/at91sam9x5-video.c:463-575 | show_buf conserves buffers with the shown buffer added, and returns at most one. |
| HeoChannel.UpdateConfigRealMeaning | drivers/media/platform/at91sam9x5-video.c:678-827 | Keeps the invariant. Resets the rotation to 0 unless the experimental option is set, and resets the plane indices. Changes nothing else except registers and plane offsets. |
| HeoChannel.ResumeMeaning | drivers/media/platform/at91sam9x5-video.c:868-891 | Leaving the bad state follows the configuration transition and changes only registers, descriptors and the two states; the slots are untouched. |
| HeoChannel.RejectMeaning | drivers/media/platform/at91sam9x5-video.c:861-867 | An invalid window marks the configuration bad and changes nothing else but registers. |
| HeoChannel.ReconfigMeaning | drivers/media/platform/at91sam9x5-video.c:836-893 | Keeps the slots and the completed list. Takes the pending format unless only the overlay changed. Follows the configuration transition for the window's validity. Resets the rotation only for a valid window without the experimental option. |
| HeoChannel.ReconfigWrites | drivers/media/platform/at91sam9x5-video.c:836-893 | Only appends to the register log. The channel is disabled exactly when the configuration turns bad, and then that is the only write. |
| HeoChannel.UpdateConfigMeaning | drivers/media/platform/at91sam9x5-video.c:829-894 | update_config first services the pending interrupt. It then acts only when a format is pending or the overlay changed, taking the pending format, and follows the configuration transition. |
| HeoChannel.UpdateConfigWrites | drivers/media/platform/at91sam9x5-video.c:829-894 | After the interrupt, the channel is disabled exactly when the configuration turns bad, and then that is the only write. |
| HeoChannel.UpdateConfigAccounts | drivers/media/platform/at91sam9x5-video.c:829-894 | update_config conserves buffers. |
| HeoChannel.BufQueueMeaning | drivers/media/platform/at91sam9x5-video.c:1005-1030 | After buf_queue the channel runs. With a bad configuration the buffer comes straight back as done and the slots are those after update_config. Otherwise the configuration is good and the buffer is next. |
| HeoChannel.BufQueueAccounts | drivers/media/platform/at91sam9x5-video.c:1005-1030 | buf_queue conserves buffers, with the queued one added. |
| HeoChannel.StreamOffMeaning | drivers/media/platform/at91sam9x5-video.c:1217-1242 | stop_streaming keeps the invariant and the configuration state, leaves the hardware idle, and writes CHDR first. |
| HeoChannel.StreamOffAccounts | drivers/media/platform/at91sam9x5-video.c:1217-1242 | stop_streaming conserves buffers. |
| HeoChannel.StreamOffUnmasks | drivers/media/platform/at91sam9x5-video.c:1231-1237 | If a buffer is still current, stop_streaming leaves the DMA interrupts enabled so that the buffer can complete. |
| HeoChannel.VoutFormatsQueueable | drivers/media/platform/at91sam9x5-video.c:1085-1092 | A format is accepted by S_FMT exactly when queue_setup can size it. Any other format gets -EINVAL. |
| HeoChannel.WaitPrepareMeaning | drivers/media/platform/at91sam9x5-video.c:940-959 | wait_prepare services the interrupt, conserving buffers, and leaves the interrupts enabled and both states unchanged. |
| HeoChannel.WaitPairMasks | drivers/media/platform/at91sam9x5-video.c:940-978 | wait_prepare then wait_finish conserves buffers, leaves the interrupts masked, and changes only registers and slots. |
| HeoChannel.SetFmtThenQueue | drivers/media/platform/at91sam9x5-video.c:1074-1105 | S_FMT succeeds iff queue_setup can size the format. The next update_config then takes that format, clears the pending flag, and marks the configuration bad iff the window is invalid for it. |
| HeoChannel.SetFmtOverlayMeaning | drivers/media/platform/at91sam9x5-video.c:1126-1149 | Only the overlay type is accepted, and any other type changes nothing. The window is taken and the configuration marked bad iff it is invalid; the formats and the pending flag stay. |
| HeoChannel.SetCtrlReportsStaleValue | drivers/media/platform/at91sam9x5-video.c:1280-1306 | As written, an accepted rotation changes the channel as the corrected call does, but the call returns the uninitialised `ret`. |
| HeoChannel.RotationRoundTrip | drivers/media/platform/at91sam9x5-video.c:1261-1307 | S_CTRL(rotate) succeeds exactly for 0, 90, 180 and 270 and otherwise changes nothing. G_CTRL then reads the value back, or 0 when a valid window without the experimental option resets it. |
| HeoChannel.QueueSetupMeaning | drivers/media/platform/at91sam9x5-video.c:896-938 | queue_setup succeeds iff the pending format is an output format. It changes only plane 0's size, which it sets to the size it returns. |
| HeoChannel.QueuedSizePrepares | drivers/media/platform/at91sam9x5-video.c:896-1003 | A buffer at least as large as queue_setup asked for passes buf_prepare and holds the descriptors. |
| HeoChannel.Heo.constructor | drivers/media/platform/at91sam9x5-video.c:267-329 | A fresh channel is idle with a good configuration, no pending format, rotation 0, empty slots and no writes. |
| HeoChannel.Heo.HandleIrqstat | drivers/media/platform/at91sam9x5-video.c:379-430 | The channel changes by the interrupt step, and the status read is returned. |
| HeoChannel.Heo.Irq | drivers/media/platform/at91sam9x5-video.c:432-451 | The channel changes by the interrupt step. The handler claims the interrupt iff an enabled interrupt is pending. |
| HeoChannel.Heo.ProgramDma | drivers/media/platform/at91sam9x5-video.c:488-555 | Stores the buffer's descriptors, then starts or queues the DMA, as ProgramDmaChan states. |
| HeoChannel.Heo.QueueSlot | drivers/media/platform/at91sam9x5-video.c:557-574 | Updates the slots and the completed list by the show step. |
| HeoChannel.Heo.ShowBuf | drivers/media/platform/at91sam9x5-video.c:463-575 | The channel changes by ShowBufChan (see ShowBufMeaning and ShowBufAccounts). |
| HeoChannel.Heo.SetupScalingCoef | drivers/media/platform/at91sam9x5-video.c:615-650 | Appends the coefficient writes and returns the phase defaults. |
| HeoChannel.Heo.ApplyConfig | drivers/media/platform/at91sam9x5-video.c:725-826 | Appends the configuration writes and records the plane offsets, chroma sizes rounded up in u32, resetting the plane indices. |
| HeoChannel.Heo.ProgramConfig | drivers/media/platform/at91sam9x5-video.c:700-826 | Sets the rotation and applies the configuration. |
| HeoChannel.Heo.UpdateConfigReal | drivers/media/platform/at91sam9x5-video.c:678-827 | The channel changes by UpdateConfigRealChan, whose chroma strides and offsets round the half sizes up in u32 (see UpdateConfigRealMeaning). |
| HeoChannel.Heo.RejectWindow | drivers/media/platform/at91sam9x5-video.c:861-867 | The channel changes by RejectChan (see RejectMeaning). |
| HeoChannel.Heo.Resume | drivers/media/platform/at91sam9x5-video.c:873-890 | The channel changes by ResumeChan (see ResumeMeaning). |
| HeoChannel.Heo.UpdateConfig | drivers/media/platform/at91sam9x5-video.c:829-894 | The channel changes by UpdateConfigChan (see UpdateConfigMeaning). |
| HeoChannel.Heo.Reconfigure | drivers/media/platform/at91sam9x5-video.c:836-893 | The channel changes by ReconfigChan (see ReconfigMeaning). |
| HeoChannel.Heo.BufQueue | drivers/media/platform/at91sam9x5-video.c:1005-1030 | The channel changes by BufQueueChan (see BufQueueMeaning). |
| HeoChannel.Heo.StreamOff | drivers/media/platform/at91sam9x5-video.c:1217-1242 | The channel changes by StreamOffChan (see StreamOffMeaning). |
| HeoChannel.Heo.Park | drivers/media/platform/at91sam9x5-video.c:1231-1237 | The hardware goes idle. The DMA interrupts are re-enabled iff a buffer is current. |
| HeoChannel.Heo.DisableChannel | drivers/media/platform/at91sam9x5-video.c:1227 | Appends the CHDR channel-disable write. |
| HeoChannel.Heo.WaitPrepare | drivers/media/platform/at91sam9x5-video.c:940-959 | The channel changes by WaitPrepareChan (see WaitPrepareMeaning). |
| HeoChannel.Heo.WaitFinish | drivers/media/platform/at91sam9x5-video.c:961-978 | Masks the DMA interrupts (see WaitPairMasks). |
| HeoChannel.Heo.SetFmtVidOut | drivers/media/platform/at91sam9x5-video.c:1074-1105 | Result and new state are those of SetFmtVidOutChan (see SetFmtThenQueue). |
| HeoChannel.Heo.SetFmtOverlay | drivers/media/platform/at91sam9x5-video.c:1126-1149 | Result and new state are those of SetFmtOverlayChan (see SetFmtOverlayMeaning). |
| HeoChannel.Heo.GetCtrl | drivers/media/platform/at91sam9x5-video.c:1261-1278 | Only the rotate control is known. Its value is 90 times the stored rotation. |
| HeoChannel.Heo.SetCtrl | drivers/media/platform/at91sam9x5-video.c:1280-1307 | Result and new state are those of SetCtrlChan, with the corrected angle check and result (see RotationRoundTrip). |
| HeoChannel.Heo.QueueSetup | drivers/media/platform/at91sam9x5-video.c:896-938 | Result and new state are those of QueueSetupChan, with one plane (see QueueSetupMeaning). |
| HeoChannel.Heo.BufPrepare | drivers/media/platform/at91sam9x5-video.c:980-1003 | Succeeds iff the buffer is at least the minimum length of the format in effect (the pending one if any). |
| LcdfbCore.ColorLayout | drivers/video/atmel_lcdfb_core.c:244-294 | Only depths 1, 2, 4, 8, 15, 16, 24 and 32 have a layout. Palette depths use one shared field of that width at offset 0. Only 32 bpp has a transparency field. No field is MSB-right. |
| LcdfbCore.TrueColorChannelsApart | drivers/video/atmel_lcdfb_core.c:244-294 | At 16, 24 and 32 bpp every field lies inside the pixel and the fields do not overlap. |
| LcdfbCore.AcceptedDepthsHaveModes | drivers/video/atmel_lcdfb_core.c:244-294 | Every depth check_var accepts has an HLCDC RGB mode except 15 bpp. |
| LcdfbCore.LineAlign | drivers/video/atmel_lcdfb_core.c:210-218 | The result is the least multiple of 4 at or above x. |
| LcdfbCore.LineAlignMonotone | drivers/video/atmel_lcdfb_core.c:210-218 | Alignment preserves order, so the aligned virtual width is at least the aligned visible width. |
| LcdfbCore.LineAlignAsWritten | drivers/video/atmel_lcdfb_core.c:217-218 | The 32-bit alignment yields a 32-bit multiple of 4. |
| LcdfbCore.VirtualAlignWrapsAsWritten | drivers/video/atmel_lcdfb_core.c:217-218 | In 32 bits, 0xFFFFFFFD aligns to 0, so the aligned virtual width can fall below the visible width. |
| LcdfbCore.FrameBytes | drivers/video/atmel_lcdfb_core.c:225-232 | The byte count covers every bit of the frame. |
| LcdfbCore.FrameBytesAsWritten | drivers/video/atmel_lcdfb_core.c:225-232 | The 32-bit computation yields a 32-bit value. |
| LcdfbCore.FrameBytesAgree | drivers/video/atmel_lcdfb_core.c:225-232 | Away from 2^32 the 32-bit and the exact byte counts agree. |
| LcdfbCore.SmemCheckWrapsAsWritten | drivers/video/atmel_lcdfb_core.c:225-232 | A 65536x65536 frame at 8 bpp needs 2^32 bytes, but the 32-bit check computes 0 and so passes. |
| LcdfbCore.SmemLen | drivers/video/atmel_lcdfb_core.c:116-118 | The video memory is the larger of the platform size and the initial frame. |
| LcdfbCore.SmemHoldsInitialFrame | drivers/video/atmel_lcdfb_core.c:116-118 | Without overflow the allocation holds the initial frame. |
| LcdfbCore.FitVirtual | drivers/video/atmel_lcdfb_core.c:210-223 | Aligns the width, grows the virtual size to cover the visible one, clears the offsets, the MSB-right flags and transparency, and changes nothing else. |
| LcdfbCore.FloorTimings | drivers/video/atmel_lcdfb_core.c:239-242 | Raises the sync lengths and horizontal margins to at least 1, and changes nothing else. |
| LcdfbCore.Settle | drivers/video/atmel_lcdfb_core.c:235-294 | Succeeds exactly for the depths with a layout, and sets that layout. Keeps the geometry and mode fields. Leaves timings at least 1 and within the controller's field limits. |
| LcdfbCore.VisualOf | drivers/video/atmel_lcdfb_core.c:341-346 | Monochrome for 1 bpp, true colour above 8 bpp, pseudo colour otherwise. |
| LcdfbCore.LineLength | drivers/video/atmel_lcdfb_core.c:348-349 | Whenever the bit count plus 7 fits in 32 bits, the line length is the virtual line in bytes, rounded up. It is always below 2^29. |
| LcdfbCore.LineLengthWrapsAsWritten | drivers/video/atmel_lcdfb_core.c:348-349 | A virtual line of 0xFFFFFFFC one-bit pixels gets line length 0. |
| LcdfbCore.TrueColorEntryDecodes | drivers/video/atmel_lcdfb_core.c:366-423 | At 16, 24 and 32 bpp the palette entry holds each channel's top bits in its field, and they read back. |
| LcdfbCore.GrayLevel | drivers/video/atmel_lcdfb_core.c:407-409 | The grey level is a 16-bit value. |
| LcdfbCore.GrayOfGrey | drivers/video/atmel_lcdfb_core.c:407-409 | A grey colour keeps its level. |
| LcdfbCore.GrayBetween | drivers/video/atmel_lcdfb_core.c:407-409 | The grey level lies between the smallest and the largest channel. |
| LcdfbCore.Channels | drivers/video/atmel_lcdfb_core.c:407-409 | In grayscale mode all three channels are equal; otherwise they pass unchanged. |
| LcdfbCore.PseudoColorFields | drivers/video/atmel_lcdfb_core.c:425-438 | The CLUT word is 15-bit, with the top five bits of red, green and blue at bits 0, 5 and 10. |
| LcdfbCore.BlankReturn | drivers/video/atmel_lcdfb_core.c:465-488 | Returns 1 for a normal blank, 0 for the other four known modes, and -EINVAL otherwise. |
| LcdfbCore.Framebuffer.constructor | drivers/video/atmel_lcdfb_core.c:110-141 | The screen starts as given, with an empty CLUT, a 16-entry pseudo palette and video memory of SmemLen bytes. |
| LcdfbCore.Framebuffer.CheckVar | drivers/video/atmel_lcdfb_core.c:180-297 | A mode is needed, and must exist, when the pixel clock or the depth is missing. It is merged in as fb_videomode_to_var does, so the depth, grayscale and nonstd are always the request's and a missing depth is refused. The call succeeds iff the clock suffices, the frame fits the memory and the depth has a layout. On success the result is aligned, keeps the requested mode fields, carries the layout, and has timings at least 1 and within the field limits. |
| LcdfbCore.Framebuffer.SetPar | drivers/video/atmel_lcdfb_core.c:326-364 | Sets the visual and the u32 line length and programs the DMA descriptor. The base layer stops, sets up (updating pixclock), loads the DMA and starts. The overlay is set up and loaded. |
| LcdfbCore.Framebuffer.SetColReg | drivers/video/atmel_lcdfb_core.c:398-451 | Succeeds iff regno is inside the visual's palette. True colour updates exactly one pseudo-palette entry. Pseudo colour and mono append exactly one CLUT write. Nothing else changes. |
| LcdfbCore.Framebuffer.PanDisplay | drivers/video/atmel_lcdfb_core.c:453-463 | Reprograms the DMA descriptor for the new offsets. |
| LcdfbCore.Framebuffer.Blank | drivers/video/atmel_lcdfb_core.c:465-488 | Returns BlankReturn. On the base layer, unblank/normal start the controller and powerdown stops it; otherwise nothing happens. |
| LcdfbCore.Framebuffer.Reset | drivers/video/atmel_lcdfb_core.c:302-310 | The base layer stops without waiting, then starts. The overlay does nothing. |
| Hlcdfb.DmaAddress | drivers/video/atmel_hlcdfb.c:58-113 | The address is 32-bit and word aligned, at or just below the (wrapped) pixel origin. |
| Hlcdfb.DmaAddressExact | drivers/video/atmel_hlcdfb.c:58-113 | Without overflow and with an aligned origin, the address is exactly start + yoffset*line + xoffset*bpp/8. |
| Hlcdfb.GetRgbMode | drivers/video/atmel_hlcdfb.c:223-265 | Exactly the supported depths have a mode, each of its own depth. The CLUT modes are those of 1 to 8 bpp. At 16 bpp the mode is ARGB4444 iff transparency is set. |
| Hlcdfb.RgbModeInjective | drivers/video/atmel_hlcdfb.c:223-265 | Different depths never share a mode. |
| Hlcdfb.DivRoundClosest | drivers/video/atmel_hlcdfb.c:280 | Rounds x/d to the nearest integer. |
| Hlcdfb.PixelClock | drivers/video/atmel_hlcdfb.c:278-297 | A divisor below 1 uses the system clock. Otherwise the divisor is the rounded ratio, and the new pixclock is the one the divided clock really gives. |
| Hlcdfb.DividerBelowClock | drivers/video/atmel_hlcdfb.c:278-297 | A divisor of at least 1 never divides the clock to 0. |
| Hlcdfb.DivisorOneWraps | drivers/video/atmel_hlcdfb.c:287-295 | A divisor of 1 encodes CLKDIV = divisor - 2 as 0xFFFFFFFF in 32 bits. |
| Hlcdfb.EncodeTiming | drivers/video/atmel_hlcdfb.c:338-358 | Each field is its timing minus 1 (the back porch as is). A zero lower margin wraps to 0xFFFFFFFF. |
| Hlcdfb.TimingRoundTrip | drivers/video/atmel_hlcdfb.c:338-358 | For encodable timings the register fields decode back to the timings and resolution. |
| Hlcdfb.ChipFieldMax | drivers/video/atmel_hlcdfb.c:411-437 | The SAM9x5 limits, with the wider horizontal porches on other chips. |
| Hlcdfb.LimitScreeninfoAsWritten | drivers/video/atmel_hlcdfb.c:426-435 | The clamps as written, with the porch bounds swapped. |
| Hlcdfb.UpperMarginOverflowsAsWritten | drivers/video/atmel_hlcdfb.c:426-435 | With VBPW equal to VFPW, an upper margin of VFPW+1 survives the clamp and overflows the VBPW field by one. |
| Hlcdfb.LimitScreeninfo | drivers/video/atmel_hlcdfb.c:411-437 | Each timing only decreases and ends within its own field's limit. Every other field is unchanged. |
| Hlcdfb.LimitIdempotent | drivers/video/atmel_hlcdfb.c:411-437 | Clamping twice equals clamping once, and timings already within limits are untouched. |
| Hlcdfb.LimitedTimingFits | drivers/video/atmel_hlcdfb.c:411-437 | After the clamp every encoded timing field fits its register field. |
| Hlcdfb.OvlConfigOf | drivers/video/atmel_hlcdfb.c:383-397 | Without the nonstd flag the overlay sits at 0,0 with size 0 and blending off. With it, the position is two 10-bit fields, the size is the resolution minus 1, and blending follows transparency. |
| Hlcdfb.NonstdFields | drivers/video/atmel_hlcdfb.c:383-397 | The nonstd word packs x and y into 10-bit fields under the flag bit. |
| Hlcdfb.OvlPositionRoundTrip | drivers/video/atmel_hlcdfb.c:383-397 | A position packed into nonstd is what the overlay is programmed with. |
| Hlcdfb.StartOrder | drivers/video/atmel_hlcdfb.c:181-195 | Start enables all four signals, in order: clock (then awaited), then display, then PWM. |
| Hlcdfb.StopOrder | drivers/video/atmel_hlcdfb.c:197-221 | Stop disables all four signals, in reverse order: display first, clock later, PWM last. |
| Hlcdfb.SignalStepsOnly | drivers/video/atmel_hlcdfb.c:181-221 | Start only enables and waits; stop only disables and waits. |
| Hlcdfb.Interrupt | drivers/video/atmel_hlcdfb.c:439-463 | An HEO interrupt is left unhandled here. The base DMA-done wakeup happens iff the base interrupt is pending and HEO is not. |
| Hlcdfb.SuspendResumeClocks | drivers/video/atmel_hlcdfb.c:468-513 | Resume re-enables exactly the clocks suspend disabled. |
| Hlcdfb.SuspendResumePower | drivers/video/atmel_hlcdfb.c:468-513 | Resume powers the panel back on iff suspend powered it off. |
| Hlcdfb.Hlcdc.constructor | drivers/video/atmel_hlcdfb.c:520-545 | A new controller for a layer has an empty log and an empty descriptor. |
| Hlcdfb.Hlcdc.UpdateDma | drivers/video/atmel_hlcdfb.c:58-113 | Programs the descriptor with DmaAddress and logs the layer's DMA register writes. |
| Hlcdfb.Hlcdc.Start | drivers/video/atmel_hlcdfb.c:181-195 | Appends the start sequence. |
| Hlcdfb.Hlcdc.Stop | drivers/video/atmel_hlcdfb.c:197-221 | Appends the stop sequence. |
| Hlcdfb.Hlcdc.Cfg5For | drivers/video/atmel_hlcdfb.c:306-336 | CFG5 inverts the sync polarity (active-low unless the high-active flag is set), keeps the default and guard-time fields, and copies only the allowed bits. |
| Hlcdfb.Hlcdc.SetupCoreBase | drivers/video/atmel_hlcdfb.c:267-376 | Appends the base setup writes and returns the resulting pixclock. |
| Hlcdfb.Hlcdc.SetupCoreOvl | drivers/video/atmel_hlcdfb.c:378-410 | Appends the overlay setup writes. |
| Hlcdfb.Hlcdc.Suspend | drivers/video/atmel_hlcdfb.c:468-491 | Only the base device acts, appending the suspend sequence. |
| Hlcdfb.Hlcdc.Resume | drivers/video/atmel_hlcdfb.c:493-513 | Only the base device acts, appending the resume sequence. |
| Ramc.MemctrlPid | arch/arm/mach-at91/include/mach/at91_ramc.h:29-31 | The id field occupies bits 8-15 only. |
| Ramc.MemctrlIsSama5d4 | arch/arm/mach-at91/include/mach/at91_ramc.h:33-36 | The SAMA5D4 flag occupies bit 24 only. |
| Ramc.MemctrlRoundTrip | arch/arm/mach-at91/include/mach/at91_ramc.h:27-40 | Type, 8-bit id and flag read back from the packed word. |
| Ramc.MemctrlNoFlag | arch/arm/mach-at91/include/mach/at91_ramc.h:27-31 | Without the flag the word is id field OR type. |
| AtPm.ResetStatusMeaning | arch/arm/mach-at91/pm.c:43-105 | Only a wakeup reset reports a wake source. The source is chosen in priority order WKUP0, RTT, RTC, then power restored. Without the controllers nothing is reported. |
| AtPm.ResetStatusDistinguishes | arch/arm/mach-at91/pm.c:43-105 | Different reset causes give different reports. |
| AtPm.ValidState | arch/arm/mach-at91/pm.c:107-118 | Exactly on, standby and mem are valid. |
| AtPm.MemType | arch/arm/mach-at91/pm.c:202-227 | The memory type fits the type mask. |
| AtPm.MemTypeMeaning | arch/arm/mach-at91/pm.c:202-227 | RM9200 uses the MC, the DDR SoCs use DDRSDRC, and the rest use SDRAMC. Only SAMA5 parts have a controller id. |
| AtPm.EnterMemctrlParts | arch/arm/mach-at91/pm.c:277-313 | The slow-clock word is type, id and the SAMA5D4 flag. |
| AtPm.EnterMemctrlDecodes | arch/arm/mach-at91/pm.c:277-313 | The word decodes to the chip's type, id and flag. |
| AtPm.VerifyClocks | arch/arm/mach-at91/pm.c:137-173 | Reports safe exactly when no USB and no programmable clock that blocks slow clock is running. |
| AtPm.SlowClockStepsSplit | arch/arm/mach-at91/pm.c:309-342 | With safe clocks, the slow-clock path switches off and back on exactly the locked PLLB and UTMI, and runs the SRAM routine iff it is present. |
| AtPm.SlowClockStepsMeaning | arch/arm/mach-at91/pm.c:309-342 | Unsafe clocks skip the whole slow-clock path. Otherwise every step and its restored value are those of the locked PLLs and the memory word. |
| AtPm.EnterStepsMeaning | arch/arm/mach-at91/pm.c:274-405 | Suspend always brackets GPIO and IRQ suspend/resume around the state's action: slow clock for mem with slow clock, CPU standby for mem or standby, idle for on. |
| AtPm.Pm.constructor | arch/arm/mach-at91/pm.c:423-440 | The target starts at on, with no steps and SRAM iff slow clock. |
| AtPm.Pm.Begin | arch/arm/mach-at91/pm.c:126-130 | Records the target state. |
| AtPm.Pm.EnteringSlowClock | arch/arm/mach-at91/pm.c:186-189 | True exactly while the target is mem. |
| AtPm.Pm.Enter | arch/arm/mach-at91/pm.c:274-405 | Appends the enter steps and resets the target to on. |
| AtPm.Pm.SlowClockRun | arch/arm/mach-at91/pm.c:315-342 | PLLB off, UTMI off, SRAM routine, then PLLB and UTMI on again, each only if locked or present. |
| AtPm.Pm.End | arch/arm/mach-at91/pm.c:410-413 | Resets the target to on. |
| BoardSama5.CameraDesc.constructor | arch/arm/mach-at91/board-dt-sama5.c:44-63 | A sensor descriptor on the given I2C adapter. |
| BoardSama5.WalkEnd | arch/arm/mach-at91/board-dt-sama5.c:247-264 | The walk stops at the first null entry or at the end. |
| BoardSama5.FixupIsiSensorBus | arch/arm/mach-at91/board-dt-sama5.c:247-264 | Every sensor before the first null entry moves to the fixed adapter. Those after it keep theirs. |
| BoardSama5.BoardModeMeaning | arch/arm/mach-at91/board-dt-sama5.c:475-570 | The HDMI board takes 1080p, 900p or 720p by resolution with 16-bit memory. The TM43xx panel takes 480x272 with 32-bit memory. Other boards keep the default mode and memory. |
| BoardSama5.BoardKeepsFit | arch/arm/mach-at91/board-dt-sama5.c:475-570 | The video memory still holds a 16 bpp frame of the chosen mode. |
| BoardSama5.BoardDisplay.constructor | arch/arm/mach-at91/board-dt-sama5.c:68-111 | The default is 800x480 at 33.26 MHz with 32 bpp memory. |
| BoardSama5.BoardDisplay.InitDisplay | arch/arm/mach-at91/board-dt-sama5.c:455-570 | Sets the mode and memory as BoardMode says. The TM70xx panel selects 24 bpp output, and each panel sets its names. |
| AsocSii9022.BclkDiv | sound/soc/atmel/atmel_sii9022.c:52-53 | The divider is the floor of mclk / (4 bclk). |
| AsocSii9022.Period | sound/soc/atmel/atmel_sii9022.c:59 | The period is half the bit clocks per frame, minus 1, rounded down. |
| AsocSii9022.HwParams | sound/soc/atmel/atmel_sii9022.c:28-72 | A missing mclk gives -ENODEV and a negative bclk gives -EINVAL, both without calls. Otherwise the three DAI calls run in order until one fails; the first failure is returned, and 0 iff all succeed. |
| AsocSii9022.HwParamsSamePeriod | sound/soc/atmel/atmel_sii9022.c:59-69 | Both frame dividers get the same period, and the clock divider is a 30-bit value. |
| AsocSii9022.SetBiasLevel | sound/soc/atmel/atmel_sii9022.c:78-96 | Always returns 0. The clock is enabled exactly when leaving standby for prepare, and disabled when leaving it for off. |
| AsocSii9022.ClockBalancedThroughStandby | sound/soc/atmel/atmel_sii9022.c:78-96 | On any walk from OFF that moves one level at a time and only passes through STANDBY, the clock count is 1 exactly in PREPARE, ON or STANDBY on the way down, and 0 otherwise. Each return to OFF leaves the clock disabled. |
| AsocSii9022.StandbyIdleEnablesTwice | sound/soc/atmel/atmel_sii9022.c:78-96 | When STANDBY is the idle level, a second stream started from it enables the clock a second time. |
| Sii9022Audio.RateFreq | drivers/hdmi/encoder-sii9022-audio.c:153-193 | Exactly the supported rates map to a sample-frequency code, and each code names its own rate. |
| Sii9022Audio.RateFreqRoundTrip | drivers/hdmi/encoder-sii9022-audio.c:153-193 | Every code's rate maps back to that code. |
| Sii9022Audio.AudioStartPlan | drivers/hdmi/encoder-sii9022-audio.c:61-193 | The plan succeeds exactly for codec-slave I2S, left- or right-justified formats with a known sample format and rate; otherwise it gives -EINVAL. On success: the shift, justification, word-select polarity and clock edge follow the format and inversion; the sample size follows the PCM format; and the channel-status rate and word length match. |
| Sii9022Audio.MuteByteMeaning | drivers/hdmi/encoder-sii9022-audio.c:31-59 | I2S PCM input is always selected. The layout is 8-channel iff there are more than 2 channels, and muting sets exactly the mute bit. |
| Sii9022Audio.MappingWrites | drivers/hdmi/encoder-sii9022-audio.c:202-204 | One FIFO mapping write per routing entry, in order. |
| Sii9022Audio.StartWritesMeaning | drivers/hdmi/encoder-sii9022-audio.c:195-231 | Start first mutes. A failed mute stops there. Success writes every mapping plus the fixed sequence, ending with the level writes. |
| Sii9022Audio.CountEnabled | drivers/hdmi/encoder-sii9022-audio.c:339-369 | At most one per routing entry. |
| Sii9022Audio.Merge | drivers/hdmi/encoder-sii9022-audio.c:339-369 | Each FIFO route combines the device-tree value with its default. |
| Sii9022Audio.AllEnabledCounted | drivers/hdmi/encoder-sii9022-audio.c:339-369 | When every FIFO is enabled, all are counted. |
| Sii9022Audio.DefaultsEnableAll | drivers/hdmi/encoder-sii9022-audio.c:332-369 | Defaults with the enable bit keep every merged FIFO enabled. |
| Sii9022Audio.ChannelsMaxBound | drivers/hdmi/encoder-sii9022-audio.c:339-369 | The channel maximum is even and at most two per FIFO. |
| Sii9022Audio.MergeDefaults | drivers/hdmi/encoder-sii9022-audio.c:339-369 | Merges the routing in place and returns how many FIFOs are enabled. |
| Sii9022Audio.AudioCodec.constructor | drivers/hdmi/encoder-sii9022-audio.c:309-323 | A new codec has no channels and no writes, with a channel maximum of 2. |
| Sii9022Audio.AudioCodec.SetFmt | drivers/hdmi/encoder-sii9022-audio.c:259-268 | Stores the DAI format. |
| Sii9022Audio.AudioCodec.DigitalMute | drivers/hdmi/encoder-sii9022-audio.c:31-59 | Writes the mute byte and returns the bus reply. |
| Sii9022Audio.AudioCodec.AudioStop | drivers/hdmi/encoder-sii9022-audio.c:234-245 | Writes the interface-disable byte and returns the bus reply. |
| Sii9022Audio.AudioCodec.AudioStart | drivers/hdmi/encoder-sii9022-audio.c:61-232 | Records the channels. An unsupported plan gives -EINVAL without writes; otherwise the start sequence is written. |
| Sii9022Audio.AudioCodec.StartAccepted | drivers/hdmi/encoder-sii9022-audio.c:195-231 | Writes the start sequence and returns its result. |
| Sii9022Audio.AudioCodec.WriteStreamConfig | drivers/hdmi/encoder-sii9022-audio.c:199-210 | Writes the stream configuration and mapping. |
| Sii9022Audio.AudioCodec.WritePackets | drivers/hdmi/encoder-sii9022-audio.c:211-228 | Writes the packed audio InfoFrame, then the three indirect writes that decode Level 0 packets. |
| Sii9022Audio.AudioCodec.CodecRegister | drivers/hdmi/encoder-sii9022-audio.c:339-369 | A device-tree error is returned with nothing changed. Otherwise the routing is merged with the defaults, the channel maximum is twice the enabled FIFOs, and the result is the codec registration's. |
| Sii9022Audio.AudioCodec.LoadRouting | drivers/hdmi/encoder-sii9022-audio.c:339-369 | Loads the device-tree routing values. |
| Sii9022Edid.Tag | drivers/hdmi/encoder-sii9022.c:199-200 | The tag is the top three header bits. |
| Sii9022Edid.Payload | drivers/hdmi/encoder-sii9022.c:199-200 | The payload length is the low five header bits. |
| Sii9022Edid.Block | drivers/hdmi/encoder-sii9022.c:199-215 | Only HDMI capability and the video list change. HDMI capability is set by an HDMI vendor block. A video block copies its payload over the head of the video list. |
| Sii9022Edid.ParseDataBlock | drivers/hdmi/encoder-sii9022.c:199-215 | Parses one data block as Block does. |
| Sii9022Edid.CopyPayload | drivers/hdmi/encoder-sii9022.c:202-205 | The payload replaces the head of the video list and the rest is kept. |
| Sii9022Edid.Walk | drivers/hdmi/encoder-sii9022.c:198-216 | The walk never touches the basic flags and never clears HDMI capability. |
| Sii9022Edid.Headers | drivers/hdmi/encoder-sii9022.c:198-216 | The visited headers start right after index and stay before the DTD offset. |
| Sii9022Edid.HeadersChain | drivers/hdmi/encoder-sii9022.c:198-216 | Each header follows the previous one's payload. |
| Sii9022Edid.WalkHdmi | drivers/hdmi/encoder-sii9022.c:198-216 | HDMI capability results iff it was set or some visited block is an HDMI vendor block. |
| Sii9022Edid.WalkWithoutVideo | drivers/hdmi/encoder-sii9022.c:198-216 | Without a video block the video list is untouched. |
| Sii9022Edid.ParseExtMeaning | drivers/hdmi/encoder-sii9022.c:178-217 | Only a CEA version-3 block is parsed. It sets the four basic flags from byte 3 and HDMI capability from the data blocks, and never clears HDMI capability. |
| Sii9022Edid.FirstHeaderAtFour | drivers/hdmi/encoder-sii9022.c:198-216 | The first data block is at byte 4. |
| Sii9022Edid.ParseExtBlk | drivers/hdmi/encoder-sii9022.c:178-217 | Parses the extension block as ParseExt does. |
| Sii9022Edid.EdidReadRetMeaning | drivers/hdmi/encoder-sii9022.c:219-268 | Success iff an adapter exists and there is no extension, or one extension that was read. A read error of the extension is passed through. |
| Sii9022Edid.FirstStop | drivers/hdmi/encoder-sii9022.c:278-288 | The index of the first status that ends the poll, or the length. |
| Sii9022Edid.Polls | drivers/hdmi/encoder-sii9022.c:278-288 | Between 1 and 100 polls. |
| Sii9022Edid.PollsStopAt | drivers/hdmi/encoder-sii9022.c:278-288 | The poll count is the first stopping read, or 100. |
| Sii9022Edid.PollRequest | drivers/hdmi/encoder-sii9022.c:278-288 | Returns the counter as left by the loop and the last status read. |
| Sii9022Edid.CounterVerdictAsWritten | drivers/hdmi/encoder-sii9022.c:279-311 | The counter is nonzero iff the poll stopped within the first 99 reads. |
| Sii9022Edid.LastPollGrantIsLost | drivers/hdmi/encoder-sii9022.c:279-288 | A grant on the 100th read leaves the counter at 0: a timeout. |
| Sii9022Edid.PhaseOkMeaning | drivers/hdmi/encoder-sii9022.c:279-311 | The corrected verdict succeeds iff some read of the phase ended it. |
| Sii9022Edid.PowerOnValue | drivers/hdmi/encoder-sii9022.c:74-81 | Power-on clears the power-down bit and selects HDMI mode iff the sink has HDMI capability. |
| Sii9022Edid.PowerOffValue | drivers/hdmi/encoder-sii9022.c:83-90 | Power-off sets the power-down bit and keeps the HDMI mode bit. |
| Sii9022Edid.PowerValuesDiffer | drivers/hdmi/encoder-sii9022.c:74-90 | The two values differ in the power-down bit only. |
| Sii9022Edid.ReadEdidRestores | drivers/hdmi/encoder-sii9022.c:270-316 | The DDC handshake first requests the bus and always ends by writing the system-control value back. |
| Sii9022Edid.Sii902x.constructor | drivers/hdmi/encoder-sii9022.c:466-568 | A new encoder has a zeroed EDID, no capabilities, no writes and no cable. |
| Sii9022Edid.Sii902x.PowerOn | drivers/hdmi/encoder-sii9022.c:74-81 | Writes the power-on value. |
| Sii9022Edid.Sii902x.PowerOff | drivers/hdmi/encoder-sii9022.c:83-90 | Writes the power-off value. |
| Sii9022Edid.Sii902x.EdidRead | drivers/hdmi/encoder-sii9022.c:219-268 | Without an adapter nothing changes. Otherwise the EDID holds block 0, plus the extension when exactly one was read, and only then is the extension parsed. |
| Sii9022Edid.Sii902x.PollRelease | drivers/hdmi/encoder-sii9022.c:300-311 | Writes the release once per poll and returns the counter and the last status. |
| Sii9022Edid.Sii902x.ReadWhileGranted | drivers/hdmi/encoder-sii9022.c:290-316 | Succeeds iff the EDID read and the release succeed. |
| Sii9022Edid.Sii902x.ReadEdid | drivers/hdmi/encoder-sii9022.c:270-316 | Succeeds iff the request, the read and the release all succeed, each phase judged by whether a read ended it. A failed request leaves the EDID untouched. |
| Sii9022Edid.Sii902x.HandleHpd | drivers/hdmi/encoder-sii9022.c:342-371 | A failed read gives -EINVAL with nothing changed. On a hot-plug event with the cable in, the cable is marked plugged and the work scheduled; with the cable out, the transmitter is powered off. The status is always acknowledged. |
| Ov7740.Entries | drivers/media/i2c/soc_camera/ov7740.c:229-248 | The entries are the prefix before the first end marker. |
| Ov7740.EntriesBeforeEnd | drivers/media/i2c/soc_camera/ov7740.c:229-248 | A terminated array stops before its end. |
| Ov7740.FirstFailure | drivers/media/i2c/soc_camera/ov7740.c:229-248 | The first failed write, or n. |
| Ov7740.ArrayOutcomeMeaning | drivers/media/i2c/soc_camera/ov7740.c:229-248 | Success iff every entry's write succeeds, and then every entry is written. A failure returns that write's error after writing the prefix up to and including it. |
| Ov7740.Masked | drivers/media/i2c/soc_camera/ov7740.c:250-263 | The masked bits come from bits and the rest from the previous value. |
| Ov7740.MaskedUnique | drivers/media/i2c/soc_camera/ov7740.c:250-263 | That is the only such value. |
| Ov7740.FlipBit | drivers/media/i2c/soc_camera/ov7740.c:291-308 | Vertical flip uses the VFLIP bit and horizontal flip the HFLIP bit. |
| Ov7740.FirstFit | drivers/media/i2c/soc_camera/ov7740.c:364-380 | The first window that fits, or the last one. |
| Ov7740.SelectWin | drivers/media/i2c/soc_camera/ov7740.c:364-380 | Returns FirstFit's index and its size. |
| Ov7740.AlwaysVga | drivers/media/i2c/soc_camera/ov7740.c:364-380 | With only VGA supported, every request gets 640x480. |
| Ov7740.ColorspaceOf | drivers/media/i2c/soc_camera/ov7740.c:422-451 | sRGB for RGB565 and JPEG otherwise. |
| Ov7740.Normalize | drivers/media/i2c/soc_camera/ov7740.c:453-500 | Keeps known codes and replaces others by the fallback, with the matching colourspace. |
| Ov7740.NormalizeStable | drivers/media/i2c/soc_camera/ov7740.c:453-500 | Normalising twice equals once. The two fallbacks differ exactly for unknown codes. |
| Ov7740.TryFmt | drivers/media/i2c/soc_camera/ov7740.c:477-500 | The size is the selected window's, with no field, and the code is normalised with fallback UYVY. |
| Ov7740.EnumFmt | drivers/media/i2c/soc_camera/ov7740.c:502-510 | Only index 0 (YUYV) exists; anything else is -EINVAL. |
| Ov7740.GRegister | drivers/media/i2c/soc_camera/ov7740.c:323-340 | Registers above 0xff give -EINVAL and a read error is passed through. Otherwise the value read is returned. |
| Ov7740.Version | drivers/media/i2c/soc_camera/ov7740.c:512-552 | A 16-bit product id. |
| Ov7740.VersionAccepts | drivers/media/i2c/soc_camera/ov7740.c:512-552 | The id is OV7740's exactly for PID 0x77 and VER 0x42. |
| Ov7740.Sensor.constructor | drivers/media/i2c/soc_camera/ov7740.c:599-643 | A new sensor has no window, no format and no writes. |
| Ov7740.Sensor.WriteArray | drivers/media/i2c/soc_camera/ov7740.c:229-248 | Writes as ArrayWrites and returns ArrayRet. |
| Ov7740.Sensor.Reset | drivers/media/i2c/soc_camera/ov7740.c:265-281 | Writes the reset array. |
| Ov7740.Sensor.MaskSet | drivers/media/i2c/soc_camera/ov7740.c:250-263 | A read error is returned without a write. Otherwise the masked value is written. |
| Ov7740.Sensor.SetCtrl | drivers/media/i2c/soc_camera/ov7740.c:291-308 | Unknown controls give -EINVAL. Otherwise exactly the flip bit of REG0C is set or cleared, and the other bits are kept. |
| Ov7740.Sensor.SetParams | drivers/media/i2c/soc_camera/ov7740.c:382-420 | Reset, then write the init array. On failure reset again and forget the window and format; on success record them. |
| Ov7740.Sensor.SetFmt | drivers/media/i2c/soc_camera/ov7740.c:453-475 | Normalises the code with fallback YUYV and selects the window; on success records them. |
| Ov7740.Sensor.GetFmt | drivers/media/i2c/soc_camera/ov7740.c:422-451 | Defaults to VGA YUYV on first use, then reports the stored window and code. |
| Ov7740.Sensor.SetRegister | drivers/media/i2c/soc_camera/ov7740.c:342-352 | Values or registers above 0xff give -EINVAL without writing. Otherwise one write. |
| Ov7740.Sensor.VideoProbe | drivers/media/i2c/soc_camera/ov7740.c:512-552 | Powers on, then always off after a successful power-on. Identifies OV7740 by its id and runs setup; any other id gives -ENODEV. |

## Left out

- Framework plumbing is not modelled:
  - probe/remove and the V4L2 querycap, reqbufs, qbuf, dqbuf and streamon ioctls;
  - the videobuf2 internals and its own part of streamoff;
  - the framebuffer notifier, init_fbinfo and fb_alloc_cmap;
  - DMA allocation and clock get/put;
  - regmap and I2C transfers, the backlight and pinctrl.
- Spinlocks and concurrency: each entry point is modelled as one atomic step.
- Polling loops are modelled by the status values they read, not by their timing:
  - wait_sync and the start/stop status waits;
  - the PLL lock waits and the encoder's 100-read polls.
- The scaler coefficient values and the CFG14-16 colour-conversion matrix are symbolic.
- The scaling factor of non-SAMA5 parts (at91sam9x5-video.c:670-675) is not modelled.
- Debug output and dev_warn are not modelled, including the pixel-clock ±5% warning (atmel_hlcdfb.c:301-304) and the wake-mask debug output in pm.c.
- Constants from headers that are not part of this model are symbolic or parameters:
  - mach/atmel_hlcdc.h, encoder-sii9022.h, at91_rstc.h, at91_pmc.h and asoundef.h;
  - the IEC958/InfoFrame byte details and the EDID buffer sizes;
  - the SAMA5D3 MPDDRC id (`sama5d3Id`).
- sii902x_setup, det_worker, detect_version and the encoder probe: beyond the constructor, only the state they touch is modelled.
- The OV7740 init register values are a parameter (`initRegs`).
- fb_find_nearest_mode is a parameter of CheckVar: `chosen` is the mode it finds in the mode list. The merge keeps only the fields fb_videomode_to_var copies, and vmode is not modelled.
- The RM9200 SDRAMC LPR write in at91_pm_init and vmode handling are not modelled.
- HeoGeometry.VideoParams: a negative rotation is excluded by requires, because it would read e[-1]. The corrected rotation check never stores one (see Findings).
- HeoChannel.Heo.ShowBuf requires a good configuration and a well-formed buffer, because the source would hit BUG_ON or use a NULL cur (at91sam9x5-video.c:479).
- HeoChannel.Heo.Resume requires a current buffer when recovering with the overlay alone changed (at91sam9x5-video.c:882-883). The source can reach that point without one: buf_queue under BAD leaves the channel RUNNING (at91sam9x5-video.c:1023-1025), and BufQueueMeaning shows the slots stay as update_config left them.
- HeoChannel.Heo.UpdateConfig requires a configurable window, because a one-pixel window divides by zero (at91sam9x5-video.c:788-792).
- BoardSama5.BoardDisplay.InitDisplay requires a resolution on the HDMI board, because the source reads it uninitialised (board-dt-sama5.c:421,499-507).
- AsocSii9022.WellFormedEnv excludes a zero bit clock and a zero stream rate once the clock checks pass, because the source divides by them (atmel_sii9022.c:51,58).
- AsocSii9022.SetBiasLevel requires mclk to be assigned, because the source never assigns it (atmel_sii9022.c:22,34).
- AsocSii9022.ClockBalancedThroughStandby covers only walks in which STANDBY is passed through, as the DAPM core walks when the idle bias is off. Where STANDBY is the idle level, every new stream enables the clock again (StandbyIdleEnablesTwice). Which of the two the sound card does is decided outside this file.
- LcdfbCore.Framebuffer.SetPar requires the base layer's pixclock in 1..10^9 picoseconds, because check_var accepts larger values but the clock setup then divides by zero.
- Hlcdfb.Hlcdc.SetupCoreBase has the same pixclock requirement as SetPar.
- LcdfbCore.Framebuffer.SetColReg requires true-colour fields that can be placed, as chan_to_field assumes.
- Sii9022Edid.Sii902x.EdidRead requires a CEA extension's DTD offset below 0x80, because larger offsets read past the buffer.
- Hlcdfb.EncodeTiming: a zero lower margin wraps in CFG2, and this is only stated, not excluded.
- Hlcdfb.GetRgbMode: 15 bpp has no HLCDC mode although check_var accepts it. 12 and 18 bpp have modes but check_var never accepts them.
- Hlcdfb.DivisorOneWraps: a clock divisor of 1 is encoded as it is written, with the wrap, and is not corrected.
- LcdfbCore.LineLength promises the exact byte count only when the bit count plus 7 fits in 32 bits. Above that the u32 arithmetic of atmel_lcdfb_core.c:348-349 wraps, as LineLengthWrapsAsWritten shows, and the model computes it as written.
- HeoPipeline.IrqStep: one CHSR value stands for the two reads at at91sam9x5-video.c:394 and 414. Both reads happen in one call when the channel is IDLE and still enabled, and the hardware may answer them differently.
- HeoChannel.ReconfigMeaning follows the corrected recovery (Findings, at91sam9x5-video.c:873-883). The source re-shows cur through show_buf, which changes the slots while cur is in use, so `Slots(t) == Slots(s)` is not promised of the source.
- HeoChannel.UpdateConfigMeaning follows the corrected recovery. Its slots equal handle_irqstat's only under that recovery.
- HeoChannel.UpdateConfigAccounts follows the corrected recovery. Under the source's, cur can be held twice (ResubmittingCurHoldsItTwice), so conservation is not promised of the source.
- HeoChannel.Heo.Resume follows the corrected recovery. It restarts the DMA on cur without show_buf's slot update.
- HeoChannel.Heo.UpdateConfig inherits the corrected recovery through Reconfigure.
- HeoChannel.Heo.Reconfigure inherits the corrected recovery through Resume.
- HeoChannel.Heo.SetFmtOverlay inherits the corrected recovery through UpdateConfig.
- HeoChannel.Heo.SetCtrl inherits the corrected recovery, uses the corrected angle check, and returns success where the source returns the uninitialised `ret` (Findings, at91sam9x5-video.c:1285-1306).
- HeoChannel.RotationRoundTrip promises success for the four angles only of the corrected s_ctrl. As written, the result is whatever `ret` held (SetCtrlReportsStaleValue).
- LcdfbCore.FitVirtual aligns xres_virtual without the u32 wrap (Findings, atmel_lcdfb_core.c:217-218). The source turns 0xFFFFFFFD into 0, so `xres <= xres_virtual` is not promised of the source.
- LcdfbCore.Settle clamps each margin to its own field (Findings, atmel_hlcdfb.c:426-435). The source's swapped bounds can overflow VBPW and HBPW.
- LcdfbCore.Framebuffer.CheckVar uses the exact line alignment, the exact frame size and the own-field margin clamp (Findings, atmel_lcdfb_core.c:217-218, atmel_lcdfb_core.c:225-232 and atmel_hlcdfb.c:426-435). The source's u32 forms can accept a frame that does not fit the memory.
- Hlcdfb.LimitScreeninfo is the corrected clamp. The clamp as written is Hlcdfb.LimitScreeninfoAsWritten (Findings, atmel_hlcdfb.c:426-435).
- Sii9022Edid.Sii902x.ReadWhileGranted judges the release by whether a status read ended the poll, not by the counter as written (Findings, encoder-sii9022.c:279-288). A grant on the last read is reported as success, where the source reports a timeout.
- Sii9022Edid.Sii902x.ReadEdid judges both the request and the release that way.

## Findings

| source | as written | input that shows it | evidently intended | confidence | as-written member | corrected member |
|---|---|---|---|---|---|---|
| drivers/media/platform/at91sam9x5-video.c:1290-1296 | rotation check accepts -270..270 in steps of 90 | S_CTRL(rotate, -90) stores -1, later read as e[(-1 + r) % 4] = e[-1] | accept only 0, 90, 180, 270 (the queryctrl range) | high, not executed | HeoGeometry.NegativeRotationIndexesBeforeCorners | HeoGeometry.RotateValueAcceptedIsAdvertised |
| drivers/media/platform/at91sam9x5-video.c:873-883 | recovery re-shows priv->cur.vb through show_buf | cur in use by the controller and next empty: show_buf keeps cur and sets next to the same buffer | restart the DMA on cur without touching the slots | medium, not executed | HeoPipeline.ResubmittingCurHoldsItTwice | HeoChannel.ResumeMeaning |
| drivers/hdmi/encoder-sii9022.c:279-288 | success judged by the loop counter being nonzero | status grants the bus only on the 100th read: counter ends at 0, reported as timeout | judge by the last status read | medium, not executed | Sii9022Edid.LastPollGrantIsLost | Sii9022Edid.PhaseOkMeaning |
| drivers/video/atmel_lcdfb_core.c:225-232 | frame size computed in u32 | 65536x65536 at 8 bpp: product wraps to 0 and passes the memory check | compare the exact size | medium, not executed | LcdfbCore.SmemCheckWrapsAsWritten | LcdfbCore.FrameBytesAgree |
| drivers/video/atmel_lcdfb_core.c:217-218 | xres_virtual aligned in u32 | xres_virtual 0xFFFFFFFD aligns to 0, below xres | align without wrapping | medium, not executed | LcdfbCore.VirtualAlignWrapsAsWritten | LcdfbCore.LineAlignMonotone |
| drivers/video/atmel_hlcdfb.c:426-435 | upper/lower and left/right margins clamped to each other's field limit | vbpw == vfpw and upper_margin = vfpw + 1: encoded VBPW = vbpw + 1 overflows | clamp each margin to its own field | high, not executed | Hlcdfb.UpperMarginOverflowsAsWritten | Hlcdfb.LimitedTimingFits |
| drivers/media/platform/at91sam9x5-video.c:1285-1306 | `ret` is left unassigned when the rotation is accepted and then returned | S_CTRL(rotate, 90) applies the rotation and returns whatever the stack held, -EINVAL included | return 0 after applying the rotation | high, not executed | HeoChannel.SetCtrlReportsStaleValue | HeoChannel.RotationRoundTrip |
