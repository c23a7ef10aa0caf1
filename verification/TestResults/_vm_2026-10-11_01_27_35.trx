﻿<?xml version="1.0" encoding="utf-8"?>
<TestRun id="8eba9edf-7054-45ef-9132-7e14ee60ba5e" name="@vm 2026-10-11 01:27:35" xmlns="http://microsoft.com/schemas/VisualStudio/TeamTest/2010">
  <Times creation="2026-10-11T01:27:35.5452542+00:00" queuing="2026-10-11T01:27:35.5452543+00:00" start="2026-10-11T01:27:33.3734449+00:00" finish="2026-10-11T01:27:35.7523606+00:00" />
  <TestSettings name="default" id="43108527-57f3-4276-94c1-52c112cae996">
    <Deployment runDeploymentRoot="_vm_2026-10-11_01_27_35" />
  </TestSettings>
  <Results>
    <UnitTestResult executionId="ed8a4fa1-ce17-44d2-85f1-fabdd547756e" testId="f2fd3039-cd1b-abe5-ac48-ccf6532c0a12" testName="Controller.ReadsReportLatch (correctness) (assertion batch 13)" computerName="vm" duration="00:00:00.0308246" startTime="2026-10-11T01:27:34.9707766+00:00" endTime="2026-10-11T01:27:35.2738247+00:00" testType="13cdc9d9-ddb5-4fa4-a97d-d965ccfc6d4b" outcome="Passed" testListId="8c84fa94-04c1-424b-9868-57a2d4851a1d" relativeResultsDirectory="ed8a4fa1-ce17-44d2-85f1-fabdd547756e" />
    <UnitTestResult executionId="fd058c24-5a1a-4db3-b604-e151d944e801" testId="dfeed716-6095-7275-398a-d6ec49956f33" testName="Controller.ReadsReportLatch (correctness) (assertion batch 11)" computerName="vm" duration="00:00:00.0341790" startTime="2026-10-11T01:27:34.8611824+00:00" endTime="2026-10-11T01:27:35.2738175+00:00" testType="13cdc9d9-ddb5-4fa4-a97d-d965ccfc6d4b" outcome="Passed" testListId="8c84fa94-04c1-424b-9868-57a2d4851a1d" relativeResultsDirectory="fd058c24-5a1a-4db3-b604-e151d944e801" />
    <UnitTestResult executionId="6f0e0065-40fd-4c77-ace2-cf244da03f83" testId="a431413b-c7d5-406b-7509-325b6fbdcac0" testName="Controller.ReadsReportLatch (correctness) (assertion batch 14)" computerName="vm" duration="00:00:00.0467085" startTime="2026-10-11T01:27:35.0133815+00:00" endTime="2026-10-11T01:27:35.2738278+00:00" testType="13cdc9d9-ddb5-4fa4-a97d-d965ccfc6d4b" outcome="Passed" testListId="8c84fa94-04c1-424b-9868-57a2d4851a1d" relativeResultsDirectory="6f0e0065-40fd-4c77-ace2-cf244da03f83" />
    <UnitTestResult executionId="3921a004-8dac-4dfe-9a96-f669c0ee24d4" testId="ddea508c-b273-d0e2-0856-7bc62096985e" testName="Controller.ReadsReportLatch (correctness) (assertion batch 3)" computerName="vm" duration="00:00:00.0129158" startTime="2026-10-11T01:27:34.6858796+00:00" endTime="2026-10-11T01:27:35.2737579+00:00" testType="13cdc9d9-ddb5-4fa4-a97d-d965ccfc6d4b" outcome="Passed" testListId="8c84fa94-04c1-424b-9868-57a2d4851a1d" relativeResultsDirectory="3921a004-8dac-4dfe-9a96-f669c0ee24d4" />
    <UnitTestResult executionId="fdfaa5e2-88a5-48ba-97ea-790a25ff68ba" testId="4955dcdb-6e75-6c19-272a-5e98709eada4" testName="Controller.ReadsReportLatch (well-formedness) (assertion batch 3)" computerName="vm" duration="00:00:00.0265160" startTime="2026-10-11T01:27:34.5481833+00:00" endTime="2026-10-11T01:27:35.2720936+00:00" testType="13cdc9d9-ddb5-4fa4-a97d-d965ccfc6d4b" outcome="Passed" testListId="8c84fa94-04c1-424b-9868-57a2d4851a1d" relativeResultsDirectory="fdfaa5e2-88a5-48ba-97ea-790a25ff68ba" />
    <UnitTestResult executionId="b5b7948b-b917-4702-9e0b-e239d311e4b3" testId="4134e779-66c2-5f79-0949-fa12f923664b" testName="Controller.ReadsReportLatch (correctness) (assertion batch 9)" computerName="vm" duration="00:00:00.0257945" startTime="2026-10-11T01:27:34.8256389+00:00" endTime="2026-10-11T01:27:35.2738106+00:00" testType="13cdc9d9-ddb5-4fa4-a97d-d965ccfc6d4b" outcome="Passed" testListId="8c84fa94-04c1-424b-9868-57a2d4851a1d" relativeResultsDirectory="b5b7948b-b917-4702-9e0b-e239d311e4b3" />
    <UnitTestResult executionId="02078fd9-c7b5-4c05-bb5f-c8bd785bcdb5" testId="e2dafb70-6039-3b45-1277-959ae3abbf47" testName="Controller.ReadsReportLatch (correctness) (assertion batch 15)" computerName="vm" duration="00:00:00.0309369" startTime="2026-10-11T01:27:35.0191441+00:00" endTime="2026-10-11T01:27:35.2738306+00:00" testType="13cdc9d9-ddb5-4fa4-a97d-d965ccfc6d4b" outcome="Passed" testListId="8c84fa94-04c1-424b-9868-57a2d4851a1d" relativeResultsDirectory="02078fd9-c7b5-4c05-bb5f-c8bd785bcdb5" />
    <UnitTestResult executionId="e428cde7-7f26-4544-b5ca-6bc4ad6c8979" testId="6c8dbc0f-9a3a-1736-3a81-1d3c5825b4b8" testName="Controller.ReadsReportLatch (well-formedness) (assertion batch 6)" computerName="vm" duration="00:00:00.0306770" startTime="2026-10-11T01:27:34.5972066+00:00" endTime="2026-10-11T01:27:35.2721088+00:00" testType="13cdc9d9-ddb5-4fa4-a97d-d965ccfc6d4b" outcome="Passed" testListId="8c84fa94-04c1-424b-9868-57a2d4851a1d" relativeResultsDirectory="e428cde7-7f26-4544-b5ca-6bc4ad6c8979" />
    <UnitTestResult executionId="716fcc72-c728-40c8-a62c-24f9bb1b2dac" testId="94a78250-fcf9-b3ec-9273-0c57a42aa072" testName="Controller.ReadsReportLatch (correctness) (assertion batch 12)" computerName="vm" duration="00:00:00.0359792" startTime="2026-10-11T01:27:34.9674278+00:00" endTime="2026-10-11T01:27:35.2738216+00:00" testType="13cdc9d9-ddb5-4fa4-a97d-d965ccfc6d4b" outcome="Passed" testListId="8c84fa94-04c1-424b-9868-57a2d4851a1d" relativeResultsDirectory="716fcc72-c728-40c8-a62c-24f9bb1b2dac" />
    <UnitTestResult executionId="d25f5a6f-1c3c-4746-a43a-fe10c29a1f6b" testId="7728e9bd-ec72-d2e4-c0b5-2dc343ed8708" testName="Controller.ReadsReportLatch (correctness) (assertion batch 18)" computerName="vm" duration="00:00:00.0880070" startTime="2026-10-11T01:27:35.1400500+00:00" endTime="2026-10-11T01:27:35.2738409+00:00" testType="13cdc9d9-ddb5-4fa4-a97d-d965ccfc6d4b" outcome="Passed" testListId="8c84fa94-04c1-424b-9868-57a2d4851a1d" relativeResultsDirectory="d25f5a6f-1c3c-4746-a43a-fe10c29a1f6b" />
    <UnitTestResult executionId="09429c51-43fb-4397-bd8d-26a867777660" testId="308aec8c-2a0c-cd57-8176-f2ed9b4158f5" testName="Controller.ReadsReportLatch (correctness) (assertion batch 7)" computerName="vm" duration="00:00:00.0287375" startTime="2026-10-11T01:27:34.7873269+00:00" endTime="2026-10-11T01:27:35.2737882+00:00" testType="13cdc9d9-ddb5-4fa4-a97d-d965ccfc6d4b" outcome="Passed" testListId="8c84fa94-04c1-424b-9868-57a2d4851a1d" relativeResultsDirectory="09429c51-43fb-4397-bd8d-26a867777660" />
    <UnitTestResult executionId="bfc72166-2f6f-4f21-b5af-79bbcf45e001" testId="b0551700-e6ce-b39b-d3f7-9a95481bb4dd" testName="Controller.ReadsReportLatch (well-formedness) (assertion batch 5)" computerName="vm" duration="00:00:00.0240008" startTime="2026-10-11T01:27:34.5951284+00:00" endTime="2026-10-11T01:27:35.2721024+00:00" testType="13cdc9d9-ddb5-4fa4-a97d-d965ccfc6d4b" outcome="Passed" testListId="8c84fa94-04c1-424b-9868-57a2d4851a1d" relativeResultsDirectory="bfc72166-2f6f-4f21-b5af-79bbcf45e001" />
    <UnitTestResult executionId="d99c0d19-7e1e-4556-a34c-4c9064b280e2" testId="f6a653b2-efb7-72b6-0208-ac5797c0cd5a" testName="Controller.ReadsReportLatch (correctness) (assertion batch 2)" computerName="vm" duration="00:00:00.1026898" startTime="2026-10-11T01:27:34.6435326+00:00" endTime="2026-10-11T01:27:35.2737364+00:00" testType="13cdc9d9-ddb5-4fa4-a97d-d965ccfc6d4b" outcome="Passed" testListId="8c84fa94-04c1-424b-9868-57a2d4851a1d" relativeResultsDirectory="d99c0d19-7e1e-4556-a34c-4c9064b280e2" />
    <UnitTestResult executionId="bb08bb0f-065d-4c92-a0b5-49c471cb626f" testId="b743619d-a559-2c86-b469-652fe55535ac" testName="Controller.ReadsReportLatch (correctness) (assertion batch 8)" computerName="vm" duration="00:00:00.0311261" startTime="2026-10-11T01:27:34.8107573+00:00" endTime="2026-10-11T01:27:35.2738011+00:00" testType="13cdc9d9-ddb5-4fa4-a97d-d965ccfc6d4b" outcome="Passed" testListId="8c84fa94-04c1-424b-9868-57a2d4851a1d" relativeResultsDirectory="bb08bb0f-065d-4c92-a0b5-49c471cb626f" />
    <UnitTestResult executionId="6b5f4945-22db-4ad4-bcad-13030e810363" testId="74fb8c56-cb94-9464-99f6-905848e9388a" testName="Controller.ReadsReportLatch (correctness) (assertion batch 17)" computerName="vm" duration="00:00:00.0495709" startTime="2026-10-11T01:27:35.0753180+00:00" endTime="2026-10-11T01:27:35.2738376+00:00" testType="13cdc9d9-ddb5-4fa4-a97d-d965ccfc6d4b" outcome="Passed" testListId="8c84fa94-04c1-424b-9868-57a2d4851a1d" relativeResultsDirectory="6b5f4945-22db-4ad4-bcad-13030e810363" />
    <UnitTestResult executionId="1df19629-00fb-4647-8f8c-dc17b4f52f06" testId="a2ad18e3-9a2a-3ec1-325e-52d6412a9718" testName="Controller.ReadsReportLatch (correctness) (assertion batch 16)" computerName="vm" duration="00:00:00.0702892" startTime="2026-10-11T01:27:35.0613653+00:00" endTime="2026-10-11T01:27:35.2738348+00:00" testType="13cdc9d9-ddb5-4fa4-a97d-d965ccfc6d4b" outcome="Passed" testListId="8c84fa94-04c1-424b-9868-57a2d4851a1d" relativeResultsDirectory="1df19629-00fb-4647-8f8c-dc17b4f52f06" />
    <UnitTestResult executionId="88cfae6d-e2c3-444b-8092-53dc16b2ea1c" testId="9d061d2a-cf64-0621-75a1-e558fb373841" testName="Controller.ReadsReportLatch (correctness) (assertion batch 6)" computerName="vm" duration="00:00:00.0415507" startTime="2026-10-11T01:27:34.7580898+00:00" endTime="2026-10-11T01:27:35.2737754+00:00" testType="13cdc9d9-ddb5-4fa4-a97d-d965ccfc6d4b" outcome="Passed" testListId="8c84fa94-04c1-424b-9868-57a2d4851a1d" relativeResultsDirectory="88cfae6d-e2c3-444b-8092-53dc16b2ea1c" />
    <UnitTestResult executionId="9b117c49-6eaf-42b0-a3b6-b6934932a472" testId="d689b939-4254-a42c-efad-9cb2a3628291" testName="Controller.ReadsReportLatch (well-formedness) (assertion batch 1)" computerName="vm" duration="00:00:00.1035078" startTime="2026-10-11T01:27:34.4091668+00:00" endTime="2026-10-11T01:27:35.2589817+00:00" testType="13cdc9d9-ddb5-4fa4-a97d-d965ccfc6d4b" outcome="Passed" testListId="8c84fa94-04c1-424b-9868-57a2d4851a1d" relativeResultsDirectory="9b117c49-6eaf-42b0-a3b6-b6934932a472" />
    <UnitTestResult executionId="a1109a11-37da-478c-9a2e-7e905f2b5b68" testId="cadeb9b1-8c0c-c537-2072-d911a1e983d1" testName="Controller.ReadsReportLatch (well-formedness) (assertion batch 4)" computerName="vm" duration="00:00:00.0368538" startTime="2026-10-11T01:27:34.5481640+00:00" endTime="2026-10-11T01:27:35.2720988+00:00" testType="13cdc9d9-ddb5-4fa4-a97d-d965ccfc6d4b" outcome="Passed" testListId="8c84fa94-04c1-424b-9868-57a2d4851a1d" relativeResultsDirectory="a1109a11-37da-478c-9a2e-7e905f2b5b68" />
    <UnitTestResult executionId="a92a228b-9c6d-4da9-8131-1a2dad094881" testId="3931c740-74ad-49cf-25af-cbe0d83bf797" testName="Controller.ReadsReportLatch (correctness) (assertion batch 1)" computerName="vm" duration="00:00:00.0449552" startTime="2026-10-11T01:27:34.6309721+00:00" endTime="2026-10-11T01:27:35.2737158+00:00" testType="13cdc9d9-ddb5-4fa4-a97d-d965ccfc6d4b" outcome="Passed" testListId="8c84fa94-04c1-424b-9868-57a2d4851a1d" relativeResultsDirectory="a92a228b-9c6d-4da9-8131-1a2dad094881" />
    <UnitTestResult executionId="2be8d845-49d5-400e-8149-a39f3e19177a" testId="f914f37f-ceae-727f-d850-ebacc6964fba" testName="Controller.ReadsReportLatch (correctness) (assertion batch 10)" computerName="vm" duration="00:00:00.0450837" startTime="2026-10-11T01:27:34.8561333+00:00" endTime="2026-10-11T01:27:35.2738146+00:00" testType="13cdc9d9-ddb5-4fa4-a97d-d965ccfc6d4b" outcome="Passed" testListId="8c84fa94-04c1-424b-9868-57a2d4851a1d" relativeResultsDirectory="2be8d845-49d5-400e-8149-a39f3e19177a" />
    <UnitTestResult executionId="0150d498-5ffc-4f14-8183-a29cd97b467f" testId="5efcaf9a-bb99-71c1-5ed1-df9eaf1bb1ec" testName="Controller.ReadsReportLatch (correctness) (assertion batch 5)" computerName="vm" duration="00:00:00.0308191" startTime="2026-10-11T01:27:34.7407586+00:00" endTime="2026-10-11T01:27:35.2737718+00:00" testType="13cdc9d9-ddb5-4fa4-a97d-d965ccfc6d4b" outcome="Passed" testListId="8c84fa94-04c1-424b-9868-57a2d4851a1d" relativeResultsDirectory="0150d498-5ffc-4f14-8183-a29cd97b467f" />
    <UnitTestResult executionId="6149869c-6df5-4f4b-a65f-edb1b7a89be2" testId="6109e354-6cc0-7b72-d913-6975e17d4145" testName="Controller.ReadsReportLatch (correctness) (assertion batch 4)" computerName="vm" duration="00:00:00.0118213" startTime="2026-10-11T01:27:34.7082003+00:00" endTime="2026-10-11T01:27:35.2737620+00:00" testType="13cdc9d9-ddb5-4fa4-a97d-d965ccfc6d4b" outcome="Passed" testListId="8c84fa94-04c1-424b-9868-57a2d4851a1d" relativeResultsDirectory="6149869c-6df5-4f4b-a65f-edb1b7a89be2" />
    <UnitTestResult executionId="a5d43802-c82d-42c1-bc9f-2971071c9bc9" testId="96286107-a30b-af94-ca78-4ec397454ac3" testName="Controller.ReadsReportLatch (well-formedness) (assertion batch 2)" computerName="vm" duration="00:00:00.1149791" startTime="2026-10-11T01:27:34.4102032+00:00" endTime="2026-10-11T01:27:35.2720806+00:00" testType="13cdc9d9-ddb5-4fa4-a97d-d965ccfc6d4b" outcome="Passed" testListId="8c84fa94-04c1-424b-9868-57a2d4851a1d" relativeResultsDirectory="a5d43802-c82d-42c1-bc9f-2971071c9bc9" />
  </Results>
  <TestDefinitions>
    <UnitTest name="Controller.ReadsReportLatch (correctness) (assertion batch 9)" storage="/root/port/controller.dfy" id="4134e779-66c2-5f79-0949-fa12f923664b">
      <Execution id="b5b7948b-b917-4702-9e0b-e239d311e4b3" />
      <TestMethod codeBase="/root/port/controller.dfy" adapterTypeName="executor://dafnyverifier/v1" className="Controller" name="ReadsReportLatch (correctness) (assertion batch 9)" />
    </UnitTest>
    <UnitTest name="Controller.ReadsReportLatch (correctness) (assertion batch 2)" storage="/root/port/controller.dfy" id="f6a653b2-efb7-72b6-0208-ac5797c0cd5a">
      <Execution id="d99c0d19-7e1e-4556-a34c-4c9064b280e2" />
      <TestMethod codeBase="/root/port/controller.dfy" adapterTypeName="executor://dafnyverifier/v1" className="Controller" name="ReadsReportLatch (correctness) (assertion batch 2)" />
    </UnitTest>
    <UnitTest name="Controller.ReadsReportLatch (well-formedness) (assertion batch 4)" storage="/root/port/controller.dfy" id="cadeb9b1-8c0c-c537-2072-d911a1e983d1">
      <Execution id="a1109a11-37da-478c-9a2e-7e905f2b5b68" />
      <TestMethod codeBase="/root/port/controller.dfy" adapterTypeName="executor://dafnyverifier/v1" className="Controller" name="ReadsReportLatch (well-formedness) (assertion batch 4)" />
    </UnitTest>
    <UnitTest name="Controller.ReadsReportLatch (correctness) (assertion batch 11)" storage="/root/port/controller.dfy" id="dfeed716-6095-7275-398a-d6ec49956f33">
      <Execution id="fd058c24-5a1a-4db3-b604-e151d944e801" />
      <TestMethod codeBase="/root/port/controller.dfy" adapterTypeName="executor://dafnyverifier/v1" className="Controller" name="ReadsReportLatch (correctness) (assertion batch 11)" />
    </UnitTest>
    <UnitTest name="Controller.ReadsReportLatch (correctness) (assertion batch 10)" storage="/root/port/controller.dfy" id="f914f37f-ceae-727f-d850-ebacc6964fba">
      <Execution id="2be8d845-49d5-400e-8149-a39f3e19177a" />
      <TestMethod codeBase="/root/port/controller.dfy" adapterTypeName="executor://dafnyverifier/v1" className="Controller" name="ReadsReportLatch (correctness) (assertion batch 10)" />
    </UnitTest>
    <UnitTest name="Controller.ReadsReportLatch (correctness) (assertion batch 18)" storage="/root/port/controller.dfy" id="7728e9bd-ec72-d2e4-c0b5-2dc343ed8708">
      <Execution id="d25f5a6f-1c3c-4746-a43a-fe10c29a1f6b" />
      <TestMethod codeBase="/root/port/controller.dfy" adapterTypeName="executor://dafnyverifier/v1" className="Controller" name="ReadsReportLatch (correctness) (assertion batch 18)" />
    </UnitTest>
    <UnitTest name="Controller.ReadsReportLatch (well-formedness) (assertion batch 1)" storage="/root/port/controller.dfy" id="d689b939-4254-a42c-efad-9cb2a3628291">
      <Execution id="9b117c49-6eaf-42b0-a3b6-b6934932a472" />
      <TestMethod codeBase="/root/port/controller.dfy" adapterTypeName="executor://dafnyverifier/v1" className="Controller" name="ReadsReportLatch (well-formedness) (assertion batch 1)" />
    </UnitTest>
    <UnitTest name="Controller.ReadsReportLatch (well-formedness) (assertion batch 6)" storage="/root/port/controller.dfy" id="6c8dbc0f-9a3a-1736-3a81-1d3c5825b4b8">
      <Execution id="e428cde7-7f26-4544-b5ca-6bc4ad6c8979" />
      <TestMethod codeBase="/root/port/controller.dfy" adapterTypeName="executor://dafnyverifier/v1" className="Controller" name="ReadsReportLatch (well-formedness) (assertion batch 6)" />
    </UnitTest>
    <UnitTest name="Controller.ReadsReportLatch (correctness) (assertion batch 17)" storage="/root/port/controller.dfy" id="74fb8c56-cb94-9464-99f6-905848e9388a">
      <Execution id="6b5f4945-22db-4ad4-bcad-13030e810363" />
      <TestMethod codeBase="/root/port/controller.dfy" adapterTypeName="executor://dafnyverifier/v1" className="Controller" name="ReadsReportLatch (correctness) (assertion batch 17)" />
    </UnitTest>
    <UnitTest name="Controller.ReadsReportLatch (correctness) (assertion batch 14)" storage="/root/port/controller.dfy" id="a431413b-c7d5-406b-7509-325b6fbdcac0">
      <Execution id="6f0e0065-40fd-4c77-ace2-cf244da03f83" />
      <TestMethod codeBase="/root/port/controller.dfy" adapterTypeName="executor://dafnyverifier/v1" className="Controller" name="ReadsReportLatch (correctness) (assertion batch 14)" />
    </UnitTest>
    <UnitTest name="Controller.ReadsReportLatch (correctness) (assertion batch 15)" storage="/root/port/controller.dfy" id="e2dafb70-6039-3b45-1277-959ae3abbf47">
      <Execution id="02078fd9-c7b5-4c05-bb5f-c8bd785bcdb5" />
      <TestMethod codeBase="/root/port/controller.dfy" adapterTypeName="executor://dafnyverifier/v1" className="Controller" name="ReadsReportLatch (correctness) (assertion batch 15)" />
    </UnitTest>
    <UnitTest name="Controller.ReadsReportLatch (correctness) (assertion batch 16)" storage="/root/port/controller.dfy" id="a2ad18e3-9a2a-3ec1-325e-52d6412a9718">
      <Execution id="1df19629-00fb-4647-8f8c-dc17b4f52f06" />
      <TestMethod codeBase="/root/port/controller.dfy" adapterTypeName="executor://dafnyverifier/v1" className="Controller" name="ReadsReportLatch (correctness) (assertion batch 16)" />
    </UnitTest>
    <UnitTest name="Controller.ReadsReportLatch (correctness) (assertion batch 1)" storage="/root/port/controller.dfy" id="3931c740-74ad-49cf-25af-cbe0d83bf797">
      <Execution id="a92a228b-9c6d-4da9-8131-1a2dad094881" />
      <TestMethod codeBase="/root/port/controller.dfy" adapterTypeName="executor://dafnyverifier/v1" className="Controller" name="ReadsReportLatch (correctness) (assertion batch 1)" />
    </UnitTest>
    <UnitTest name="Controller.ReadsReportLatch (correctness) (assertion batch 7)" storage="/root/port/controller.dfy" id="308aec8c-2a0c-cd57-8176-f2ed9b4158f5">
      <Execution id="09429c51-43fb-4397-bd8d-26a867777660" />
      <TestMethod codeBase="/root/port/controller.dfy" adapterTypeName="executor://dafnyverifier/v1" className="Controller" name="ReadsReportLatch (correctness) (assertion batch 7)" />
    </UnitTest>
    <UnitTest name="Controller.ReadsReportLatch (well-formedness) (assertion batch 3)" storage="/root/port/controller.dfy" id="4955dcdb-6e75-6c19-272a-5e98709eada4">
      <Execution id="fdfaa5e2-88a5-48ba-97ea-790a25ff68ba" />
      <TestMethod codeBase="/root/port/controller.dfy" adapterTypeName="executor://dafnyverifier/v1" className="Controller" name="ReadsReportLatch (well-formedness) (assertion batch 3)" />
    </UnitTest>
    <UnitTest name="Controller.ReadsReportLatch (correctness) (assertion batch 3)" storage="/root/port/controller.dfy" id="ddea508c-b273-d0e2-0856-7bc62096985e">
      <Execution id="3921a004-8dac-4dfe-9a96-f669c0ee24d4" />
      <TestMethod codeBase="/root/port/controller.dfy" adapterTypeName="executor://dafnyverifier/v1" className="Controller" name="ReadsReportLatch (correctness) (assertion batch 3)" />
    </UnitTest>
    <UnitTest name="Controller.ReadsReportLatch (correctness) (assertion batch 6)" storage="/root/port/controller.dfy" id="9d061d2a-cf64-0621-75a1-e558fb373841">
      <Execution id="88cfae6d-e2c3-444b-8092-53dc16b2ea1c" />
      <TestMethod codeBase="/root/port/controller.dfy" adapterTypeName="executor://dafnyverifier/v1" className="Controller" name="ReadsReportLatch (correctness) (assertion batch 6)" />
    </UnitTest>
    <UnitTest name="Controller.ReadsReportLatch (correctness) (assertion batch 13)" storage="/root/port/controller.dfy" id="f2fd3039-cd1b-abe5-ac48-ccf6532c0a12">
      <Execution id="ed8a4fa1-ce17-44d2-85f1-fabdd547756e" />
      <TestMethod codeBase="/root/port/controller.dfy" adapterTypeName="executor://dafnyverifier/v1" className="Controller" name="ReadsReportLatch (correctness) (assertion batch 13)" />
    </UnitTest>
    <UnitTest name="Controller.ReadsReportLatch (correctness) (assertion batch 8)" storage="/root/port/controller.dfy" id="b743619d-a559-2c86-b469-652fe55535ac">
      <Execution id="bb08bb0f-065d-4c92-a0b5-49c471cb626f" />
      <TestMethod codeBase="/root/port/controller.dfy" adapterTypeName="executor://dafnyverifier/v1" className="Controller" name="ReadsReportLatch (correctness) (assertion batch 8)" />
    </UnitTest>
    <UnitTest name="Controller.ReadsReportLatch (well-formedness) (assertion batch 2)" storage="/root/port/controller.dfy" id="96286107-a30b-af94-ca78-4ec397454ac3">
      <Execution id="a5d43802-c82d-42c1-bc9f-2971071c9bc9" />
      <TestMethod codeBase="/root/port/controller.dfy" adapterTypeName="executor://dafnyverifier/v1" className="Controller" name="ReadsReportLatch (well-formedness) (assertion batch 2)" />
    </UnitTest>
    <UnitTest name="Controller.ReadsReportLatch (well-formedness) (assertion batch 5)" storage="/root/port/controller.dfy" id="b0551700-e6ce-b39b-d3f7-9a95481bb4dd">
      <Execution id="bfc72166-2f6f-4f21-b5af-79bbcf45e001" />
      <TestMethod codeBase="/root/port/controller.dfy" adapterTypeName="executor://dafnyverifier/v1" className="Controller" name="ReadsReportLatch (well-formedness) (assertion batch 5)" />
    </UnitTest>
    <UnitTest name="Controller.ReadsReportLatch (correctness) (assertion batch 12)" storage="/root/port/controller.dfy" id="94a78250-fcf9-b3ec-9273-0c57a42aa072">
      <Execution id="716fcc72-c728-40c8-a62c-24f9bb1b2dac" />
      <TestMethod codeBase="/root/port/controller.dfy" adapterTypeName="executor://dafnyverifier/v1" className="Controller" name="ReadsReportLatch (correctness) (assertion batch 12)" />
    </UnitTest>
    <UnitTest name="Controller.ReadsReportLatch (correctness) (assertion batch 5)" storage="/root/port/controller.dfy" id="5efcaf9a-bb99-71c1-5ed1-df9eaf1bb1ec">
      <Execution id="0150d498-5ffc-4f14-8183-a29cd97b467f" />
      <TestMethod codeBase="/root/port/controller.dfy" adapterTypeName="executor://dafnyverifier/v1" className="Controller" name="ReadsReportLatch (correctness) (assertion batch 5)" />
    </UnitTest>
    <UnitTest name="Controller.ReadsReportLatch (correctness) (assertion batch 4)" storage="/root/port/controller.dfy" id="6109e354-6cc0-7b72-d913-6975e17d4145">
      <Execution id="6149869c-6df5-4f4b-a65f-edb1b7a89be2" />
      <TestMethod codeBase="/root/port/controller.dfy" adapterTypeName="executor://dafnyverifier/v1" className="Controller" name="ReadsReportLatch (correctness) (assertion batch 4)" />
    </UnitTest>
  </TestDefinitions>
  <TestEntries>
    <TestEntry testId="f2fd3039-cd1b-abe5-ac48-ccf6532c0a12" executionId="ed8a4fa1-ce17-44d2-85f1-fabdd547756e" testListId="8c84fa94-04c1-424b-9868-57a2d4851a1d" />
    <TestEntry testId="dfeed716-6095-7275-398a-d6ec49956f33" executionId="fd058c24-5a1a-4db3-b604-e151d944e801" testListId="8c84fa94-04c1-424b-9868-57a2d4851a1d" />
    <TestEntry testId="a431413b-c7d5-406b-7509-325b6fbdcac0" executionId="6f0e0065-40fd-4c77-ace2-cf244da03f83" testListId="8c84fa94-04c1-424b-9868-57a2d4851a1d" />
    <TestEntry testId="ddea508c-b273-d0e2-0856-7bc62096985e" executionId="3921a004-8dac-4dfe-9a96-f669c0ee24d4" testListId="8c84fa94-04c1-424b-9868-57a2d4851a1d" />
    <TestEntry testId="4955dcdb-6e75-6c19-272a-5e98709eada4" executionId="fdfaa5e2-88a5-48ba-97ea-790a25ff68ba" testListId="8c84fa94-04c1-424b-9868-57a2d4851a1d" />
    <TestEntry testId="4134e779-66c2-5f79-0949-fa12f923664b" executionId="b5b7948b-b917-4702-9e0b-e239d311e4b3" testListId="8c84fa94-04c1-424b-9868-57a2d4851a1d" />
    <TestEntry testId="e2dafb70-6039-3b45-1277-959ae3abbf47" executionId="02078fd9-c7b5-4c05-bb5f-c8bd785bcdb5" testListId="8c84fa94-04c1-424b-9868-57a2d4851a1d" />
    <TestEntry testId="6c8dbc0f-9a3a-1736-3a81-1d3c5825b4b8" executionId="e428cde7-7f26-4544-b5ca-6bc4ad6c8979" testListId="8c84fa94-04c1-424b-9868-57a2d4851a1d" />
    <TestEntry testId="94a78250-fcf9-b3ec-9273-0c57a42aa072" executionId="716fcc72-c728-40c8-a62c-24f9bb1b2dac" testListId="8c84fa94-04c1-424b-9868-57a2d4851a1d" />
    <TestEntry testId="7728e9bd-ec72-d2e4-c0b5-2dc343ed8708" executionId="d25f5a6f-1c3c-4746-a43a-fe10c29a1f6b" testListId="8c84fa94-04c1-424b-9868-57a2d4851a1d" />
    <TestEntry testId="308aec8c-2a0c-cd57-8176-f2ed9b4158f5" executionId="09429c51-43fb-4397-bd8d-26a867777660" testListId="8c84fa94-04c1-424b-9868-57a2d4851a1d" />
    <TestEntry testId="b0551700-e6ce-b39b-d3f7-9a95481bb4dd" executionId="bfc72166-2f6f-4f21-b5af-79bbcf45e001" testListId="8c84fa94-04c1-424b-9868-57a2d4851a1d" />
    <TestEntry testId="f6a653b2-efb7-72b6-0208-ac5797c0cd5a" executionId="d99c0d19-7e1e-4556-a34c-4c9064b280e2" testListId="8c84fa94-04c1-424b-9868-57a2d4851a1d" />
    <TestEntry testId="b743619d-a559-2c86-b469-652fe55535ac" executionId="bb08bb0f-065d-4c92-a0b5-49c471cb626f" testListId="8c84fa94-04c1-424b-9868-57a2d4851a1d" />
    <TestEntry testId="74fb8c56-cb94-9464-99f6-905848e9388a" executionId="6b5f4945-22db-4ad4-bcad-13030e810363" testListId="8c84fa94-04c1-424b-9868-57a2d4851a1d" />
    <TestEntry testId="a2ad18e3-9a2a-3ec1-325e-52d6412a9718" executionId="1df19629-00fb-4647-8f8c-dc17b4f52f06" testListId="8c84fa94-04c1-424b-9868-57a2d4851a1d" />
    <TestEntry testId="9d061d2a-cf64-0621-75a1-e558fb373841" executionId="88cfae6d-e2c3-444b-8092-53dc16b2ea1c" testListId="8c84fa94-04c1-424b-9868-57a2d4851a1d" />
    <TestEntry testId="d689b939-4254-a42c-efad-9cb2a3628291" executionId="9b117c49-6eaf-42b0-a3b6-b6934932a472" testListId="8c84fa94-04c1-424b-9868-57a2d4851a1d" />
    <TestEntry testId="cadeb9b1-8c0c-c537-2072-d911a1e983d1" executionId="a1109a11-37da-478c-9a2e-7e905f2b5b68" testListId="8c84fa94-04c1-424b-9868-57a2d4851a1d" />
    <TestEntry testId="3931c740-74ad-49cf-25af-cbe0d83bf797" executionId="a92a228b-9c6d-4da9-8131-1a2dad094881" testListId="8c84fa94-04c1-424b-9868-57a2d4851a1d" />
    <TestEntry testId="f914f37f-ceae-727f-d850-ebacc6964fba" executionId="2be8d845-49d5-400e-8149-a39f3e19177a" testListId="8c84fa94-04c1-424b-9868-57a2d4851a1d" />
    <TestEntry testId="5efcaf9a-bb99-71c1-5ed1-df9eaf1bb1ec" executionId="0150d498-5ffc-4f14-8183-a29cd97b467f" testListId="8c84fa94-04c1-424b-9868-57a2d4851a1d" />
    <TestEntry testId="6109e354-6cc0-7b72-d913-6975e17d4145" executionId="6149869c-6df5-4f4b-a65f-edb1b7a89be2" testListId="8c84fa94-04c1-424b-9868-57a2d4851a1d" />
    <TestEntry testId="96286107-a30b-af94-ca78-4ec397454ac3" executionId="a5d43802-c82d-42c1-bc9f-2971071c9bc9" testListId="8c84fa94-04c1-424b-9868-57a2d4851a1d" />
  </TestEntries>
  <TestLists>
    <TestList name="Results Not in a List" id="8c84fa94-04c1-424b-9868-57a2d4851a1d" />
    <TestList name="All Loaded Results" id="19431567-8539-422a-85d7-44ee4e166bda" />
  </TestLists>
  <ResultSummary outcome="Completed">
    <Counters total="24" executed="24" passed="24" failed="0" error="0" timeout="0" aborted="0" inconclusive="0" passedButRunAborted="0" notRunnable="0" notExecuted="0" disconnected="0" warning="0" completed="0" inProgress="0" pending="0" />
  </ResultSummary>
</TestRun>